/** The simulation's configuration defaults (config.py), fixed as constants. */
module Config {

  // The swap fee (config.py, `SWAP_FEE` = 0.003) appears as the literal 0.003
  // in DefiMechanics.

  /** Starting balance of each token for every agent (config.py, `INITIAL_TOKENS`). */
  const INITIAL_TOKENS: real := 100.0

  /** Reserves of a pool built without arguments (`Pool.reserve_a`, `Pool.reserve_b` defaults). */
  const DEFAULT_RESERVE: real := 1000.0

  /** Default number of agents and of turns per run (config.py, `NUM_AGENTS`, `TURNS_PER_RUN`). */
  const NUM_AGENTS: nat := 5
  const TURNS_PER_RUN: nat := 5
}
