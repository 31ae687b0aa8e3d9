/** Math.random() as an injectable source: a fixed stream of draws in
    [0, 1) and a cursor that each call advances by one. */
module Random {
  import opened Geometry

  class Rng {
    const draw: nat -> Unit
    var next: nat

    constructor(draw: nat -> Unit)
      ensures this.draw == draw && next == 0
    {
      this.draw := draw;
      next := 0;
    }

    /** One call of Math.random(). */
    method Random() returns (r: Unit)
      modifies this
      ensures r == draw(old(next)) && next == old(next) + 1
    {
      r := draw(next);
      next := next + 1;
    }
  }
}
