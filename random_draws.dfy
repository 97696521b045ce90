/** The two samplers of Python's `random` module that the simulator calls.
    Randomness is not modelled: every draw is a value the caller supplies,
    and the predicates below say which values the library can produce. */
module RandomDraws {

  /** A value of `random.random()`: a real in [0, 1). */
  predicate IsUnitDraw(u: real) {
    0.0 <= u < 1.0
  }

  /** Every element of `us` is a value of `random.random()`. */
  predicate AllUnitDraws(us: seq<real>) {
    forall i :: 0 <= i < |us| ==> IsUnitDraw(us[i])
  }

  /** `random.uniform(a, b)`, which the library computes from one value `u`
      of `random.random()` as `a + (b - a) * u`. */
  function Uniform(a: real, b: real, u: real): real
    requires IsUnitDraw(u)
  {
    a + (b - a) * u
  }

  /** A value of `random.randint(a, b)`: an integer in [a, b], both ends included. */
  predicate IsRandInt(a: int, b: int, k: int) {
    a <= k <= b
  }
}
