/**
 * numpy's random draws, with the randomness itself taken as a parameter: a draw
 * is any natural number, reduced into the range numpy draws from, so that every
 * value in that range is the outcome of some draw.
 */
module Draws {

  /** `np.random.randint(low, high)`: the upper bound is exclusive. */
  function RandInt(low: int, high: int, draw: nat): (r: int)
    requires low < high
    ensures low <= r < high
    ensures draw < high - low ==> r == low + draw
  {
    low + draw % (high - low)
  }

  /** `np.random.choice(options)`: one of the options. */
  function Choice<T>(options: seq<T>, draw: nat): (r: T)
    requires |options| > 0
    ensures r in options
    ensures draw < |options| ==> r == options[draw]
  {
    options[draw % |options|]
  }
}
