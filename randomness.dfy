/** Math.random as an injected source of draws. A draw is a number in
    [0, 1); the source hands out `sample(0)`, `sample(1)`, ... in order,
    so every property proved about the generator holds for every sequence
    of draws. */
module Randomness {

  /** A value `Math.random()` can return. */
  type Unit = r: real | 0.0 <= r < 1.0

  /** An infinite sequence of draws. */
  type Draws = nat -> Unit

  /** `Math.floor(x * n)`: the index a draw `x` selects among `n` positions. */
  function ScaledIndex(x: Unit, n: nat): (k: nat)
    requires n > 0
    ensures k < n
  {
    assert 0.0 <= x * n as real < n as real by {
      assert (1.0 - x) * n as real > 0.0;
    }
    (x * n as real).Floor
  }

  /** The index is the whole part of `x * n`. */
  lemma ScaledIndexIsFloor(x: Unit, n: nat)
    requires n > 0
    ensures var k := ScaledIndex(x, n); k as real <= x * n as real < k as real + 1.0
  {
  }

  /** `getRandomChar(str)` once its draw `x` is known: `str.charAt(...)`,
      which is the empty string when `str` is empty. */
  function RandomChar(str: string, x: Unit): (r: string)
    ensures |str| > 0 ==> |r| == 1 && r[0] in str
    ensures |str| == 0 ==> r == ""
  {
    if |str| == 0 then "" else [str[ScaledIndex(x, |str|)]]
  }

  /** The global random generator: its position in the draw sequence. */
  class RandomSource {
    const sample: Draws
    var pos: nat

    constructor (sample: Draws)
      ensures this.sample == sample && pos == 0
    {
      this.sample := sample;
      pos := 0;
    }

    /** One call of `Math.random()`. */
    method Next() returns (x: Unit)
      modifies this
      ensures x == sample(old(pos)) && pos == old(pos) + 1
    {
      x := sample(pos);
      pos := pos + 1;
    }
  }

  /** `getRandomChar(str)`: one draw, then the character it selects. */
  method GetRandomChar(str: string, rng: RandomSource) returns (r: string)
    modifies rng
    ensures rng.pos == old(rng.pos) + 1
    ensures r == RandomChar(str, rng.sample(old(rng.pos)))
  {
    var x := rng.Next();
    r := RandomChar(str, x);
  }
}
