/**
 * The constant-product automated market maker (core/defi_mechanics.py).
 *
 * The pure functions over `PoolState` give the effect of each pool operation
 * on the pool's fields; the `Pool` class changes its fields in place and is
 * proved to have exactly that effect.
 */
module DefiMechanics {
  import opened Config
  import opened Dicts
  import opened Wrappers
  import Sorting
  import Gini

  /** The fields of a pool: reserves, LP balances by provider, cached `k`. */
  datatype PoolState = PoolState(
    reserveA: real,
    reserveB: real,
    providers: Dict<real>,
    constantProduct: real)

  /** The exceptions pool operations can raise. */
  datatype PoolError = ZeroDivisionError | KeyError(key: string)

  /** The cached `_constant_product` agrees with the reserves. */
  predicate ProductCached(p: PoolState) {
    p.constantProduct == p.reserveA * p.reserveB
  }

  /** A pool with the given reserves and providers whose cached product has just been recomputed. */
  function Refreshed(reserveA: real, reserveB: real, providers: Dict<real>): (q: PoolState)
    ensures q.reserveA == reserveA && q.reserveB == reserveB && q.providers == providers
    ensures ProductCached(q)
  {
    PoolState(reserveA, reserveB, providers, reserveA * reserveB)
  }

  /** A pool built by `Pool(reserve_a, reserve_b)`. */
  function NewPool(reserveA: real, reserveB: real): (p: PoolState)
    ensures ProductCached(p) && Distinct(p.providers) && Total(p.providers) == 0.0
  {
    PoolState(reserveA, reserveB, [], reserveA * reserveB)
  }

  /** `dy = y * dx / (x + dx)`, or 0 when an argument is not positive. */
  function CalculateOutput(amountIn: real, reserveIn: real, reserveOut: real): real {
    if amountIn <= 0.0 || reserveIn <= 0.0 || reserveOut <= 0.0 then 0.0
    else (amountIn * reserveOut) / (reserveIn + amountIn)
  }

  /**
   * The output is 0 unless all three arguments are positive; then it is
   * positive, below the output reserve, and keeps the product of the
   * reserves: `(x + dx)(y - dy) = x y`.
   */
  lemma OutputOnCurve(amountIn: real, reserveIn: real, reserveOut: real)
    ensures var out := CalculateOutput(amountIn, reserveIn, reserveOut);
            && (amountIn <= 0.0 || reserveIn <= 0.0 || reserveOut <= 0.0 ==> out == 0.0)
            && (amountIn > 0.0 && reserveIn > 0.0 && reserveOut > 0.0 ==>
                  && 0.0 < out < reserveOut
                  && (reserveIn + amountIn) * (reserveOut - out) == reserveIn * reserveOut)
  {
    if amountIn > 0.0 && reserveIn > 0.0 && reserveOut > 0.0 {
      var out := CalculateOutput(amountIn, reserveIn, reserveOut);
      assert out * (reserveIn + amountIn) == amountIn * reserveOut;
      assert out < reserveOut by {
        assert out * (reserveIn + amountIn) < reserveOut * (reserveIn + amountIn);
      }
    }
  }

  datatype SwapResult = SwapResult(pool: PoolState, amountOut: real, fee: real)

  /**
   * `Pool.swap`: the fee is `SWAP_FEE` = 0.003 of the curve output; the input is
   * added to the input reserve and what remains of the output leaves the
   * other. Any `tokenIn` other than "a" swaps token B.
   */
  function SwapStep(p: PoolState, tokenIn: string, amountIn: real): SwapResult
  {
    if amountIn <= 0.0 then SwapResult(p, 0.0, 0.0)
    else if tokenIn == "a" then
      var raw := CalculateOutput(amountIn, p.reserveA, p.reserveB);
      var fee := raw * 0.003;
      var out := raw - fee;
      var a, b := p.reserveA + amountIn, p.reserveB - out;
      SwapResult(Refreshed(a, b, p.providers), out, fee)
    else
      var raw := CalculateOutput(amountIn, p.reserveB, p.reserveA);
      var fee := raw * 0.003;
      var out := raw - fee;
      var a, b := p.reserveA - out, p.reserveB + amountIn;
      SwapResult(Refreshed(a, b, p.providers), out, fee)
  }

  /** What a swap does to the reserves, and what it pays out. */
  lemma SwapEffect(p: PoolState, tokenIn: string, amountIn: real)
    ensures var r := SwapStep(p, tokenIn, amountIn);
            && (amountIn <= 0.0 ==> r == SwapResult(p, 0.0, 0.0))
            && (amountIn > 0.0 && tokenIn == "a" ==>
                var raw := CalculateOutput(amountIn, p.reserveA, p.reserveB);
                && r.fee == raw * 0.003 && r.amountOut + r.fee == raw
                && r.pool.reserveA == p.reserveA + amountIn
                && r.pool.reserveB == p.reserveB - r.amountOut)
            && (amountIn > 0.0 && tokenIn != "a" ==>
                var raw := CalculateOutput(amountIn, p.reserveB, p.reserveA);
                && r.fee == raw * 0.003 && r.amountOut + r.fee == raw
                && r.pool.reserveB == p.reserveB + amountIn
                && r.pool.reserveA == p.reserveA - r.amountOut)
            && (amountIn > 0.0 ==> ProductCached(r.pool))
            && (r.pool.providers == p.providers)
  {
  }

  /** The algebra of one swap: `(x + dx)(y - (1 - f) dy) = x y + f y dx` when `dy (x + dx) = y dx`. */
  lemma FeeGrowth(x: real, y: real, dx: real, dy: real)
    requires dy * (x + dx) == dx * y
    ensures (x + dx) * (y - (dy - dy * 0.003)) == x * y + 0.003 * y * dx
  {
    calc {
      (x + dx) * (y - (dy - dy * 0.003));
      (x + dx) * y - dy * (x + dx) + 0.003 * (dy * (x + dx));
      (x + dx) * y - dx * y + 0.003 * (dx * y);
      x * y + 0.003 * y * dx;
    }
  }

  /**
   * A swap into a pool with positive reserves keeps both reserves positive
   * and raises `k` by exactly the fee rate times the output reserve times the
   * input: `k` never decreases.
   */
  lemma SwapGrowsProduct(p: PoolState, tokenIn: string, amountIn: real)
    requires p.reserveA > 0.0 && p.reserveB > 0.0 && amountIn > 0.0
    ensures var q := SwapStep(p, tokenIn, amountIn).pool;
            var reserveOut := if tokenIn == "a" then p.reserveB else p.reserveA;
            && q.reserveA > 0.0 && q.reserveB > 0.0
            && q.reserveA * q.reserveB == p.reserveA * p.reserveB + 0.003 * reserveOut * amountIn
            && q.reserveA * q.reserveB > p.reserveA * p.reserveB
  {
    var q := SwapStep(p, tokenIn, amountIn).pool;
    var x, y := p.reserveA, p.reserveB;
    if tokenIn == "a" {
      var raw := CalculateOutput(amountIn, x, y);
      assert q.reserveA == x + amountIn && q.reserveB == y - (raw - raw * 0.003);
      SwapAlgebra(x, y, amountIn);
    } else {
      var raw := CalculateOutput(amountIn, y, x);
      assert q.reserveB == y + amountIn && q.reserveA == x - (raw - raw * 0.003);
      SwapAlgebra(y, x, amountIn);
      assert q.reserveA * q.reserveB == q.reserveB * q.reserveA;
    }
  }

  /** One swap of `dx` into reserves `x, y`, in plain numbers. */
  lemma SwapAlgebra(x: real, y: real, dx: real)
    requires x > 0.0 && y > 0.0 && dx > 0.0
    ensures var raw := CalculateOutput(dx, x, y);
            var out := raw - raw * 0.003;
            && 0.0 < out < y
            && (x + dx) * (y - out) == x * y + 0.003 * y * dx
            && 0.003 * y * dx > 0.0
  {
    var raw := CalculateOutput(dx, x, y);
    OutputOnCurve(dx, x, y);
    assert raw * (x + dx) == dx * y by {
      assert (x + dx) * (y - raw) == x * y;
    }
    FeeGrowth(x, y, dx, raw);
    assert raw * 0.003 < raw;
  }

  /**
   * Swapping A for B and immediately swapping the whole output back returns
   * exactly `(1 - fee)` squared times the original input: the fee erodes
   * value and never adds to it.
   */
  lemma RoundTripLosesFee(p: PoolState, amountIn: real)
    requires p.reserveA > 0.0 && p.reserveB > 0.0 && amountIn > 0.0
    ensures var first := SwapStep(p, "a", amountIn);
            var back := SwapStep(first.pool, "b", first.amountOut);
            && back.amountOut == (1.0 - 0.003) * (1.0 - 0.003) * amountIn
            && back.amountOut < amountIn
  {
    var x, y := p.reserveA, p.reserveB;
    var first := SwapStep(p, "a", amountIn);
    var raw1 := CalculateOutput(amountIn, x, y);
    assert raw1 * (x + amountIn) == amountIn * y;
    var out1 := first.amountOut;
    assert out1 == (1.0 - 0.003) * raw1;
    SwapGrowsProduct(p, "a", amountIn);
    var q := first.pool;
    assert q.reserveA == x + amountIn && q.reserveB == y - out1;
    assert out1 > 0.0;
    var raw2 := CalculateOutput(out1, q.reserveB, q.reserveA);
    assert q.reserveB + out1 == y;
    assert raw2 * y == out1 * (x + amountIn);
    assert raw2 * y == (1.0 - 0.003) * (raw1 * (x + amountIn));
    assert raw2 * y == (1.0 - 0.003) * amountIn * y;
    assert raw2 == (1.0 - 0.003) * amountIn;
  }

  datatype ProvideResult = ProvideResult(pool: PoolState, lpTokens: real)

  function Min(a: real, b: real): real {
    if a <= b then a else b
  }

  /**
   * LP tokens minted for a deposit: the geometric mean while no liquidity is
   * recorded, otherwise the smaller share times the summed reserves.
   */
  function MintedLP(total: real, reserveA: real, reserveB: real, amountA: real, amountB: real,
                    sqrt: real -> real): real
    requires total != 0.0 ==> reserveA != 0.0 && reserveB != 0.0
  {
    if total == 0.0 then sqrt(amountA * amountB)
    else Min(amountA / reserveA, amountB / reserveB) * (reserveA + reserveB)
  }

  /**
   * `Pool.provide_liquidity`. The first liquidity is minted at the geometric
   * mean `sqrt(a * b)`; later liquidity at the smaller of the two shares
   * times the sum of the reserves, which divides by the reserves and so
   * raises ZeroDivisionError when one of them is 0.
   */
  function ProvideStep(p: PoolState, amountA: real, amountB: real, agentName: string,
                       sqrt: real -> real): (r: Result<ProvideResult, PoolError>)
  {
    if amountA <= 0.0 || amountB <= 0.0 then Ok(ProvideResult(p, 0.0))
    else
      var total := Total(p.providers);
      if total != 0.0 && (p.reserveA == 0.0 || p.reserveB == 0.0) then Err(ZeroDivisionError)
      else
        var lp := MintedLP(total, p.reserveA, p.reserveB, amountA, amountB, sqrt);
        var a, b := p.reserveA + amountA, p.reserveB + amountB;
        Ok(ProvideResult(Refreshed(a, b, Credit(p.providers, agentName, lp)), lp))
  }

  /** What a deposit does, on each of the three paths. */
  lemma ProvideEffect(p: PoolState, amountA: real, amountB: real, agentName: string, sqrt: real -> real)
    ensures var r := ProvideStep(p, amountA, amountB, agentName, sqrt);
            && (amountA <= 0.0 || amountB <= 0.0 ==> r == Ok(ProvideResult(p, 0.0)))
            && ((amountA > 0.0 && amountB > 0.0 && Total(p.providers) != 0.0
                && (p.reserveA == 0.0 || p.reserveB == 0.0)) ==> r == Err(ZeroDivisionError))
            && ((amountA > 0.0 && amountB > 0.0
                && (Total(p.providers) == 0.0 || (p.reserveA != 0.0 && p.reserveB != 0.0))) ==>
                && r.Ok?
                && var q, lp := r.value.pool, r.value.lpTokens;
                && q.reserveA == p.reserveA + amountA
                && q.reserveB == p.reserveB + amountB
                && ProductCached(q)
                && lp == MintedLP(Total(p.providers), p.reserveA, p.reserveB, amountA, amountB, sqrt)
                && q.providers == Credit(p.providers, agentName, lp))
  {
  }

  /** The path on which a deposit goes through. */
  lemma ProvideCompletes(p: PoolState, amountA: real, amountB: real, agentName: string, sqrt: real -> real)
    requires amountA > 0.0 && amountB > 0.0
    requires Total(p.providers) == 0.0 || (p.reserveA != 0.0 && p.reserveB != 0.0)
    ensures var lp := MintedLP(Total(p.providers), p.reserveA, p.reserveB, amountA, amountB, sqrt);
            ProvideStep(p, amountA, amountB, agentName, sqrt)
              == Ok(ProvideResult(Refreshed(p.reserveA + amountA, p.reserveB + amountB,
                                            Credit(p.providers, agentName, lp)), lp))
  {
  }

  /**
   * Proportional minting gives the smaller of the two deposit shares of the
   * summed reserves: a positive amount, never more than either leg's share,
   * and exactly one of them.
   */
  lemma ProportionalMintBounded(total: real, reserveA: real, reserveB: real, amountA: real, amountB: real,
                                sqrt: real -> real)
    requires total != 0.0 && reserveA > 0.0 && reserveB > 0.0 && amountA > 0.0 && amountB > 0.0
    ensures var lp := MintedLP(total, reserveA, reserveB, amountA, amountB, sqrt);
            var s := reserveA + reserveB;
            && lp > 0.0
            && lp * reserveA <= amountA * s
            && lp * reserveB <= amountB * s
            && (lp * reserveA == amountA * s || lp * reserveB == amountB * s)
  {
    var sa, sb := amountA / reserveA, amountB / reserveB;
    var s := reserveA + reserveB;
    assert sa * reserveA == amountA && sb * reserveB == amountB;
    var m := Min(sa, sb);
    if sa <= sb {
      assert sa * reserveB <= sb * reserveB;
      assert m * reserveA == amountA && m * reserveB <= amountB;
    } else {
      assert sb * reserveA <= sa * reserveA;
      assert m * reserveB == amountB && m * reserveA <= amountA;
    }
    var lp := m * s;
    assert lp * reserveA == (m * reserveA) * s;
    assert lp * reserveB == (m * reserveB) * s;
  }

  /** A withdrawal either completes or raises after having changed the reserves. */
  datatype WithdrawOutcome =
    | Withdrawn(pool: PoolState, amountA: real, amountB: real)
    | Raised(pool: PoolState, error: PoolError)

  /**
   * `Pool.withdraw_liquidity`: pays out the share `lp / total` of each
   * reserve. It does not check that the caller owns that many LP tokens;
   * for an agent without an LP entry it raises KeyError after the reserves
   * were reduced and before the cached product is refreshed.
   */
  function WithdrawStep(p: PoolState, lpTokens: real, agentName: string): WithdrawOutcome
  {
    var total := Total(p.providers);
    if total == 0.0 || lpTokens <= 0.0 then Withdrawn(p, 0.0, 0.0)
    else
      var share := lpTokens / total;
      var amountA, amountB := p.reserveA * share, p.reserveB * share;
      var a, b := p.reserveA - amountA, p.reserveB - amountB;
      if agentName !in Keys(p.providers) then
        Raised(PoolState(a, b, p.providers, p.constantProduct), KeyError(agentName))
      else
        Withdrawn(Refreshed(a, b, Credit(p.providers, agentName, -lpTokens)), amountA, amountB)
  }

  /** What a withdrawal does, completed or raised. */
  lemma WithdrawEffect(p: PoolState, lpTokens: real, agentName: string)
    ensures var r := WithdrawStep(p, lpTokens, agentName);
            && (Total(p.providers) == 0.0 || lpTokens <= 0.0 ==> r == Withdrawn(p, 0.0, 0.0))
            && (Total(p.providers) != 0.0 && lpTokens > 0.0 ==>
                var share := lpTokens / Total(p.providers);
                && r.pool.reserveA == p.reserveA - p.reserveA * share
                && r.pool.reserveB == p.reserveB - p.reserveB * share
                && (agentName in Keys(p.providers) <==> r.Withdrawn?)
                && (r.Withdrawn? ==>
                      && r.amountA == p.reserveA * share && r.amountB == p.reserveB * share
                      && ProductCached(r.pool)
                      && r.pool.providers == Credit(p.providers, agentName, -lpTokens))
                && (r.Raised? ==>
                      && r.error == KeyError(agentName)
                      && r.pool.providers == p.providers
                      && r.pool.constantProduct == p.constantProduct))
  {
  }

  /** Paying out `x * share` leaves `x * (1 - share)` and the two add up to `x`. */
  lemma ScaledRemainder(x: real, share: real, paid: real, left: real)
    requires paid == x * share && left == x - paid
    ensures paid + left == x && left == x * (1.0 - share)
  {
  }

  /**
   * A completed withdrawal pays out exactly what it takes from the reserves
   * and scales both reserves by `1 - share`.
   */
  lemma WithdrawPays(p: PoolState, lpTokens: real, agentName: string)
    requires Total(p.providers) != 0.0 && lpTokens > 0.0 && agentName in Keys(p.providers)
    ensures var r := WithdrawStep(p, lpTokens, agentName);
            var share := lpTokens / Total(p.providers);
            && r.Withdrawn?
            && r.amountA + r.pool.reserveA == p.reserveA
            && r.amountB + r.pool.reserveB == p.reserveB
            && r.pool.reserveA == p.reserveA * (1.0 - share)
            && r.pool.reserveB == p.reserveB * (1.0 - share)
  {
    var r := WithdrawStep(p, lpTokens, agentName);
    var share := lpTokens / Total(p.providers);
    ScaledRemainder(p.reserveA, share, r.amountA, r.pool.reserveA);
    ScaledRemainder(p.reserveB, share, r.amountB, r.pool.reserveB);
  }

  /** A completed withdrawal burns exactly `lpTokens` from the caller's balance and from the total. */
  lemma WithdrawBurns(p: PoolState, lpTokens: real, agentName: string)
    requires Total(p.providers) != 0.0 && lpTokens > 0.0 && agentName in Keys(p.providers)
    ensures var r := WithdrawStep(p, lpTokens, agentName);
            && r.Withdrawn?
            && agentName in Keys(r.pool.providers)
            && Lookup(r.pool.providers, agentName) == Lookup(p.providers, agentName) - lpTokens
            && Total(r.pool.providers) == Total(p.providers) - lpTokens
  {
    CreditEffect(p.providers, agentName, -lpTokens);
  }

  /** Withdrawing more LP tokens than exist drives both positive reserves negative. */
  lemma OverWithdrawalGoesNegative(p: PoolState, lpTokens: real, agentName: string)
    requires Total(p.providers) > 0.0 && lpTokens > Total(p.providers)
    requires p.reserveA > 0.0 && p.reserveB > 0.0
    ensures WithdrawStep(p, lpTokens, agentName).pool.reserveA < 0.0
    ensures WithdrawStep(p, lpTokens, agentName).pool.reserveB < 0.0
  {
    var total := Total(p.providers);
    var share := lpTokens / total;
    Gini.QuotientAboveOne(lpTokens, total);
    var r := WithdrawStep(p, lpTokens, agentName);
    assert r.pool.reserveA == p.reserveA - p.reserveA * share;
    assert r.pool.reserveB == p.reserveB - p.reserveB * share;
    ScaledPastZero(p.reserveA, share);
    ScaledPastZero(p.reserveB, share);
  }

  lemma ScaledPastZero(x: real, share: real)
    requires x > 0.0 && share > 1.0
    ensures x - x * share < 0.0
  {
    assert x * share > x * 1.0;
  }

  /**
   * `constant_product` is `reserve_a * reserve_b` after every operation that
   * completes: a swap of a positive amount and a deposit or withdrawal that
   * goes through recompute it, and their no-op paths leave it as it was.
   */
  lemma CompletedStepsKeepK(p: PoolState, tokenIn: string, amountIn: real, amountA: real, amountB: real,
                            lpTokens: real, agentName: string, sqrt: real -> real)
    ensures amountIn > 0.0 || ProductCached(p) ==> ProductCached(SwapStep(p, tokenIn, amountIn).pool)
    ensures var r := ProvideStep(p, amountA, amountB, agentName, sqrt);
            r.Ok? && ((amountA > 0.0 && amountB > 0.0) || ProductCached(p)) ==> ProductCached(r.value.pool)
    ensures var r := WithdrawStep(p, lpTokens, agentName);
            r.Withdrawn? && ((Total(p.providers) != 0.0 && lpTokens > 0.0) || ProductCached(p)) ==>
              ProductCached(r.pool)
  {
  }

  /**
   * The one path that leaves `constant_product` stale: a withdrawal by an
   * agent without an LP entry shrinks the reserves and then raises KeyError,
   * so the cached `k` is larger than the product of the new reserves.
   */
  lemma KeyErrorLeavesKStale(p: PoolState, lpTokens: real, agentName: string)
    requires ProductCached(p) && p.reserveA > 0.0 && p.reserveB > 0.0
    requires 0.0 < lpTokens <= Total(p.providers) && agentName !in Keys(p.providers)
    ensures var r := WithdrawStep(p, lpTokens, agentName);
            && r.Raised? && r.error == KeyError(agentName)
            && r.pool.constantProduct == p.constantProduct
            && r.pool.reserveA * r.pool.reserveB < r.pool.constantProduct
  {
    var total := Total(p.providers);
    var share := lpTokens / total;
    assert 0.0 < share <= 1.0 by {
      Sorting.QuotientBetween(total, 0.0, 1.0, lpTokens);
      assert share * total == lpTokens;
    }
    var r := WithdrawStep(p, lpTokens, agentName);
    var keep := 1.0 - share;
    var a, b := r.pool.reserveA, r.pool.reserveB;
    assert a == p.reserveA * keep && b == p.reserveB * keep;
    ScaledProductShrinks(p.reserveA, p.reserveB, keep, a, b);
  }

  /** Scaling both sides of a positive product by a factor in `[0, 1)` makes it smaller. */
  lemma ScaledProductShrinks(x: real, y: real, c: real, a: real, b: real)
    requires x > 0.0 && y > 0.0 && 0.0 <= c < 1.0 && a == x * c && b == y * c
    ensures a * b < x * y
  {
    assert a * b == (x * y) * (c * c);
    assert c * c <= c < 1.0;
  }

  /** `price_ab`: B per A, or 0 when reserve A is not positive. */
  function PriceAB(p: PoolState): (price: real)
    ensures p.reserveA > 0.0 ==> price * p.reserveA == p.reserveB
    ensures p.reserveA <= 0.0 ==> price == 0.0
  {
    if p.reserveA > 0.0 then p.reserveB / p.reserveA else 0.0
  }

  /** `price_ba`: A per B, or 0 when reserve B is not positive. */
  function PriceBA(p: PoolState): (price: real)
    ensures p.reserveB > 0.0 ==> price * p.reserveB == p.reserveA
    ensures p.reserveB <= 0.0 ==> price == 0.0
  {
    if p.reserveB > 0.0 then p.reserveA / p.reserveB else 0.0
  }

  /** With both reserves positive the two prices are reciprocal. */
  lemma PricesReciprocal(p: PoolState)
    requires p.reserveA > 0.0 && p.reserveB > 0.0
    ensures PriceAB(p) * PriceBA(p) == 1.0
  {
    var ab, ba := PriceAB(p), PriceBA(p);
    assert ab * ba * (p.reserveA * p.reserveB) == (ab * p.reserveA) * (ba * p.reserveB);
  }

  /** `total_liquidity`: the sum of all LP balances; 0 for a pool without providers. */
  function TotalLiquidity(p: PoolState): (total: real)
    ensures p.providers == [] ==> total == 0.0
  {
    Total(p.providers)
  }

  /**
   * How the operations move `total_liquidity`: a swap leaves it alone, a
   * completed deposit adds the minted LP tokens and a completed withdrawal
   * subtracts the burned ones.
   */
  lemma LiquidityTracksLP(p: PoolState, tokenIn: string, amountIn: real, amountA: real, amountB: real,
                          lpTokens: real, agentName: string, sqrt: real -> real)
    ensures TotalLiquidity(SwapStep(p, tokenIn, amountIn).pool) == TotalLiquidity(p)
    ensures var r := ProvideStep(p, amountA, amountB, agentName, sqrt);
            r.Ok? ==> TotalLiquidity(r.value.pool) == TotalLiquidity(p) + r.value.lpTokens
    ensures var r := WithdrawStep(p, lpTokens, agentName);
            r.Withdrawn? && Total(p.providers) != 0.0 && lpTokens > 0.0 ==>
              TotalLiquidity(r.pool) == TotalLiquidity(p) - lpTokens
    ensures var r := WithdrawStep(p, lpTokens, agentName);
            r.Raised? ==> TotalLiquidity(r.pool) == TotalLiquidity(p)
  {
    var r := ProvideStep(p, amountA, amountB, agentName, sqrt);
    if r.Ok? && amountA > 0.0 && amountB > 0.0 {
      var lp := MintedLP(Total(p.providers), p.reserveA, p.reserveB, amountA, amountB, sqrt);
      CreditEffect(p.providers, agentName, lp);
    }
    if Total(p.providers) != 0.0 && lpTokens > 0.0 && agentName in Keys(p.providers) {
      WithdrawBurns(p, lpTokens, agentName);
    }
  }

  /** The pool of the simulation, changed in place by its operations. */
  class Pool {
    var reserveA: real
    var reserveB: real
    var liquidityProviders: Dict<real>
    var constantProduct: real
    /** The float square root `x ** 0.5` used for the first LP mint, supplied from outside. */
    const sqrt: real -> real

    function State(): PoolState
      reads this
    {
      PoolState(reserveA, reserveB, liquidityProviders, constantProduct)
    }

    /** Each provider has one LP balance. */
    ghost predicate Valid()
      reads this
    {
      Distinct(liquidityProviders)
    }

    constructor (reserveA: real, reserveB: real, sqrt: real -> real)
      ensures Valid() && State() == NewPool(reserveA, reserveB) && this.sqrt == sqrt
    {
      this.reserveA := reserveA;
      this.reserveB := reserveB;
      this.liquidityProviders := [];
      this.sqrt := sqrt;
      this.constantProduct := reserveA * reserveB;
    }

    /** `constant_product`: the cached `k` (see `CompletedStepsKeepK` and `KeyErrorLeavesKStale`). */
    function ConstantProduct(): real
      reads this
    {
      constantProduct
    }

    method Swap(tokenIn: string, amountIn: real, agentName: string) returns (amountOut: real, fee: real)
      requires Valid()
      modifies this
      ensures Valid()
      ensures SwapResult(State(), amountOut, fee) == SwapStep(old(State()), tokenIn, amountIn)
      ensures amountIn > 0.0 || old(ProductCached(State())) ==> ProductCached(State())
    {
      if amountIn <= 0.0 {
        return 0.0, 0.0;
      }
      var a, b;
      if tokenIn == "a" {
        amountOut := CalculateOutput(amountIn, reserveA, reserveB);
        fee := amountOut * 0.003;
        amountOut := amountOut - fee;
        a, b := reserveA + amountIn, reserveB - amountOut;
      } else {
        amountOut := CalculateOutput(amountIn, reserveB, reserveA);
        fee := amountOut * 0.003;
        amountOut := amountOut - fee;
        a, b := reserveA - amountOut, reserveB + amountIn;
      }
      reserveA, reserveB, constantProduct := a, b, a * b;
    }

    /** Returns the LP tokens minted, or the exception raised (then nothing changed). */
    method ProvideLiquidity(amountA: real, amountB: real, agentName: string)
      returns (lpTokens: real, raised: Option<PoolError>)
      requires Valid()
      modifies this
      ensures Valid()
      ensures match ProvideStep(old(State()), amountA, amountB, agentName, sqrt)
              case Ok(res) => raised == None && State() == res.pool && lpTokens == res.lpTokens
              case Err(e) => raised == Some(e) && State() == old(State())
      ensures raised == None && ((amountA > 0.0 && amountB > 0.0) || old(ProductCached(State()))) ==>
                ProductCached(State())
    {
      if amountA <= 0.0 || amountB <= 0.0 {
        return 0.0, None;
      }
      ghost var before := State();
      var total := Total(liquidityProviders);
      if total != 0.0 && (reserveA == 0.0 || reserveB == 0.0) {
        return 0.0, Some(ZeroDivisionError);
      }
      lpTokens := MintedLP(total, reserveA, reserveB, amountA, amountB, sqrt);
      ProvideCompletes(before, amountA, amountB, agentName, sqrt);
      CreditDistinct(liquidityProviders, agentName, lpTokens);
      var a, b := reserveA + amountA, reserveB + amountB;
      reserveA, reserveB, liquidityProviders, constantProduct
        := a, b, Credit(liquidityProviders, agentName, lpTokens), a * b;
      raised := None;
    }

    /** Returns the amounts paid out, or the exception raised (then the reserves have already changed). */
    method WithdrawLiquidity(lpTokens: real, agentName: string)
      returns (amountA: real, amountB: real, raised: Option<PoolError>)
      requires Valid()
      modifies this
      ensures Valid()
      ensures match WithdrawStep(old(State()), lpTokens, agentName)
              case Withdrawn(q, a, b) => raised == None && State() == q && amountA == a && amountB == b
              case Raised(q, e) => raised == Some(e) && State() == q
      ensures raised == None && ((old(Total(liquidityProviders)) != 0.0 && lpTokens > 0.0)
                                 || old(ProductCached(State()))) ==>
                ProductCached(State())
    {
      var totalLp := Total(liquidityProviders);
      if totalLp == 0.0 || lpTokens <= 0.0 {
        return 0.0, 0.0, None;
      }
      var share := lpTokens / totalLp;
      amountA := reserveA * share;
      amountB := reserveB * share;
      if agentName !in Keys(liquidityProviders) {
        reserveA, reserveB := reserveA - amountA, reserveB - amountB;
        return amountA, amountB, Some(KeyError(agentName));
      }
      CreditDistinct(liquidityProviders, agentName, -lpTokens);
      var a, b := reserveA - amountA, reserveB - amountB;
      reserveA, reserveB, liquidityProviders, constantProduct
        := a, b, Credit(liquidityProviders, agentName, -lpTokens), a * b;
      raised := None;
    }
  }
}
