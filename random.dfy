// The source of the random draws of the spawner.

module Random {

  /** A generator of bounded draws. The engine relies only on the range of each
      draw; the recurrence below stands in for the process-wide generator. */
  class Rand {
    var seed: int

    constructor (seed: int)
      ensures this.seed == seed
    {
      this.seed := seed;
    }

    /** A draw in [0, n); n must be positive, as for the generator it models. */
    method Intn(n: int) returns (r: int)
      requires n > 0
      modifies this
      ensures 0 <= r < n
    {
      r := seed % n;
      seed := (seed * 1103515245 + 12345) % 2147483648;
    }
  }
}
