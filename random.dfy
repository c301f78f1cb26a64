/** The rasterizers' private random generator (`FastRandom`), as a supplied
    stream of draws in [0, 1) and a count of the draws used so far. The
    generator keeps its position between calls, as the rasterizer's
    `random` field does. */
module Randomness {

  class RandomSource {
    const stream: nat -> real
    var used: nat

    /** Every draw lies in [0, 1), as `nextFloat()` and `nextDouble(0, 1)` promise. */
    ghost predicate Valid() {
      forall i: nat :: 0.0 <= stream(i) < 1.0
    }

    constructor (s: nat -> real)
      requires forall i: nat :: 0.0 <= s(i) < 1.0
      ensures stream == s && used == 0 && Valid()
    {
      stream := s;
      used := 0;
    }

    /** `nextFloat()`: take the next draw. */
    method NextFloat() returns (r: real)
      requires Valid()
      modifies this
      ensures used == old(used) + 1
      ensures r == stream(old(used))
      ensures 0.0 <= r < 1.0
    {
      r := stream(used);
      used := used + 1;
    }
  }

  /** The draw indices in `d` are pairwise distinct and all in [lo, hi):
      each cell got a draw of its own from the part of the stream a call used. */
  ghost predicate OwnDraws<K>(d: map<K, nat>, lo: nat, hi: nat) {
    && (forall k :: k in d ==> lo <= d[k] < hi)
    && (forall k, k' :: k in d && k' in d && k != k' ==> d[k] != d[k'])
  }

  /** Giving a fresh key the next draw keeps the draws distinct, and counts it. */
  lemma DrawAdd<K>(d: map<K, nat>, lo: nat, used: nat, k: K)
    requires OwnDraws(d, lo, used) && lo <= used && k !in d
    ensures OwnDraws(d[k := used], lo, used + 1) && |d[k := used]| == |d| + 1
  {
    assert d[k := used].Keys == d.Keys + {k};
  }
}
