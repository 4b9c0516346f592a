/**
 * The Mulberry32 generator behind world generation: a pure 32-bit mixing function and a
 * module-level state that `seedRng` sets and `rng` advances by one before every draw.
 */
module Rng {
  const TWO_POW_32: int := 0x1_0000_0000

  /** `x >>> 0`: the unsigned 32-bit integer congruent to `x`. */
  function ToUint32(x: int): bv32 {
    (x % TWO_POW_32) as bv32
  }

  /** `x | 0`: the signed 32-bit integer congruent to `x`. */
  function ToInt32(x: int): (i: int)
    ensures -0x8000_0000 <= i < 0x8000_0000
    ensures (i - x) % TWO_POW_32 == 0
  {
    var u := x % TWO_POW_32;
    if u < 0x8000_0000 then u else u - TWO_POW_32
  }

  /**
   * The mixing steps of `mulberry32` on 32-bit words. `Math.imul`, `+ ... | 0`, `^` and
   * `>>>` all act modulo 2^32, which is what `bv32` arithmetic does.
   */
  function Mulberry32Bits(s: bv32): bv32 {
    var a := s + 0x6d2b79f5;
    var t := (a ^ (a >> 15)) * (1 | a);
    var t2 := (t + (t ^ (t >> 7)) * (61 | t)) ^ t;
    t2 ^ (t2 >> 14)
  }

  /** The final `>>> 0`: the mixed word of `s` as an unsigned integer. */
  function Mulberry32Word(s: int): (w: nat)
    ensures w < TWO_POW_32
  {
    Mulberry32Bits(ToUint32(s)) as int
  }

  /** `mulberry32(s)`: the unsigned word divided by 2^32. */
  function Mulberry32(s: int): (r: real)
    ensures 0.0 <= r < 1.0
  {
    Mulberry32Word(s) as real / TWO_POW_32 as real
  }

  /** The draw depends on its argument only modulo 2^32 (the `s |= 0` on entry). */
  lemma Mulberry32Periodic(s: int, k: int)
    ensures Mulberry32(s + k * TWO_POW_32) == Mulberry32(s)
  {
    assert (s + k * TWO_POW_32) % TWO_POW_32 == s % TWO_POW_32;
    assert ToUint32(s + k * TWO_POW_32) == ToUint32(s);
  }

  /**
   * The `n` values a generator returns when its state starts at `state` and every call
   * advances the state by one and returns `draw` of the new state. `rng()` is the stream
   * of `Mulberry32`; the stream lemmas are stated for any `draw`.
   */
  function Draws(draw: int -> real, state: int, n: nat): (ds: seq<real>)
    ensures |ds| == n
    decreases n
  {
    if n == 0 then [] else [draw(state + 1)] + Draws(draw, state + 1, n - 1)
  }

  /** Draw `i` of a stream is `draw` of the state advanced `i + 1` times. */
  lemma {:induction false} DrawsAt(draw: int -> real, state: int, n: nat, i: nat)
    requires i < n
    ensures Draws(draw, state, n)[i] == draw(state + i + 1)
    decreases i
  {
    if i > 0 {
      DrawsAt(draw, state + 1, n - 1, i - 1);
    }
  }

  /** Every `rng()` draw lies in [0, 1). */
  lemma DrawsInUnitInterval(state: int, n: nat)
    ensures forall i :: 0 <= i < n ==> 0.0 <= Draws(Mulberry32, state, n)[i] < 1.0
  {
    forall i | 0 <= i < n
      ensures 0.0 <= Draws(Mulberry32, state, n)[i] < 1.0
    {
      DrawsAt(Mulberry32, state, n, i);
    }
  }

  /** Draws taken in two runs are the draws of one run: the stream depends only on the state. */
  lemma {:induction false} DrawsSplit(draw: int -> real, state: int, m: nat, n: nat)
    ensures Draws(draw, state, m + n) == Draws(draw, state, m) + Draws(draw, state + m, n)
    decreases m
  {
    if m > 0 {
      var head := [draw(state + 1)];
      calc {
        Draws(draw, state, m + n);
        head + Draws(draw, state + 1, (m - 1) + n);
        { DrawsSplit(draw, state + 1, m - 1, n); }
        head + (Draws(draw, state + 1, m - 1) + Draws(draw, state + m, n));
        (head + Draws(draw, state + 1, m - 1)) + Draws(draw, state + m, n);
        Draws(draw, state, m) + Draws(draw, state + m, n);
      }
    }
  }

  /** The seed `seedRng` settles on: the given one, or a random 32-bit one when it is 0. */
  function ActualSeed(seed: int, randomDraw: real): (actual: int)
    ensures seed != 0 ==> actual == seed
    ensures seed == 0 ==> -0x8000_0000 <= actual < 0x8000_0000
  {
    if seed != 0 then seed else ToInt32((randomDraw * 0xffff_ffff as real).Floor)
  }

  /** Two worlds generated from the same non-zero seed see the same stream of draws. */
  lemma SameSeedSameDraws(seed: int, draw1: real, draw2: real, n: nat)
    requires seed != 0
    ensures Draws(Mulberry32, ActualSeed(seed, draw1), n) == Draws(Mulberry32, ActualSeed(seed, draw2), n)
  {
  }

  /** Every value `draw` returns lies in [0, 1). */
  ghost predicate InUnitInterval(draw: int -> real) {
    forall s :: 0.0 <= draw(s) < 1.0
  }

  /**
   * The module-level generator of `rng.ts`: the state, and the function `rng()` applies to the
   * advanced state, which the constructor fixes to `mulberry32`. Reasoning about which draw
   * goes where needs only that the draws lie in [0, 1), so clients see `draw` and its range.
   */
  class Generator {
    var state: int
    const draw: int -> real

    ghost predicate Valid() {
      InUnitInterval(draw)
    }

    constructor()
      ensures state == 0 && draw == Mulberry32 && Valid()
    {
      state := 0;
      draw := Mulberry32;
    }

    /** `seedRng(seed)`; `randomDraw` stands for the `Math.random()` used when `seed` is 0. */
    method Seed(seed: int, randomDraw: real) returns (actual: int)
      modifies this
      ensures actual == ActualSeed(seed, randomDraw) && state == actual
      ensures seed != 0 ==> actual == seed
    {
      actual := if seed != 0 then seed else ToInt32((randomDraw * 0xffff_ffff as real).Floor);
      state := actual;
    }

    /** `rng()`: advance the state, then draw from the new state. */
    method Next() returns (r: real)
      requires Valid()
      modifies this
      ensures state == old(state) + 1
      ensures r == draw(state) && [r] == Draws(draw, old(state), 1)
      ensures 0.0 <= r < 1.0
    {
      state := state + 1;
      r := draw(state);
    }
  }

  /** `n` calls of `rng()` on `g`, collected in order. */
  method Take(g: Generator, n: nat) returns (xs: seq<real>)
    requires g.Valid()
    modifies g
    ensures g.state == old(g.state) + n
    ensures xs == Draws(g.draw, old(g.state), n)
  {
    ghost var s0 := g.state;
    xs := [];
    var k := 0;
    while k < n
      invariant 0 <= k <= n && g.state == s0 + k
      invariant xs == Draws(g.draw, s0, k)
    {
      var x := g.Next();
      DrawsSplit(g.draw, s0, k, 1);
      xs := xs + [x];
      k := k + 1;
    }
  }

  /**
   * Reproducibility of `rng.ts`: two generators seeded with the same non-zero seed (whatever
   * `Math.random()` would have given) return the same `n` values from `n` calls of `rng()`,
   * the Mulberry32 stream of that seed.
   */
  method SameSeedSameValues(seed: int, randomDraw1: real, randomDraw2: real, n: nat) returns (xs: seq<real>, ys: seq<real>)
    requires seed != 0
    ensures xs == ys && xs == Draws(Mulberry32, seed, n)
  {
    var g1 := new Generator();
    var _ := g1.Seed(seed, randomDraw1);
    xs := Take(g1, n);
    var g2 := new Generator();
    var _ := g2.Seed(seed, randomDraw2);
    ys := Take(g2, n);
  }
}
