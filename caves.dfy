/** `CaveFacetProvider`: the cave threshold rule and the provider's
    configuration. A position of the target region at depth `d` below the
    floor (`d > 0`) is a cave when its cave noise exceeds `rawAmount` plus a
    non-negative increase that fades caves out near the floor and on a broad
    scale. Positions at or above the floor are never caves. */
module Caves {
  import opened Geometry
  import opened Facets

  /** The six configured values (`CaveFacetProviderConfiguration`). */
  datatype CaveSettings = CaveSettings(
    amountOfCaves: real,
    width: real,
    height: real,
    amountofCavesNearSurface: real,
    gradualIncreaseOverDepth: real,
    rawAmount: real)

  /** The configuration's initial values. */
  const DefaultSettings: CaveSettings := CaveSettings(0.75, 1.0, 1.0, 0.5, 64.0, 0.3)

  /** The ranges the configuration screen allows. */
  predicate InRange(s: CaveSettings) {
    && 0.0 <= s.amountOfCaves <= 1.0
    && 0.0 <= s.width <= 2.0
    && 0.0 <= s.height <= 2.0
    && 0.0 <= s.amountofCavesNearSurface <= 1.0
    && 1.0 <= s.gradualIncreaseOverDepth <= 200.0
    && -1.0 <= s.rawAmount <= 1.0
  }

  lemma DefaultsInRange()
    ensures InRange(DefaultSettings)
  {
  }

  const SharpSurfaceCutoffDepth: real := 12.0
  const MinDepth: real := 0.0

  /** `min(1 - near, max(0, 1 - depth / 12))`: fades caves out over the 12 blocks below the floor. */
  function FadeForSurfaceCutoff(near: real, depth: real): (f: real)
    ensures near <= 1.0 ==> 0.0 <= f <= 1.0 - near
    ensures f <= Max(0.0, 1.0 - depth / SharpSurfaceCutoffDepth)
  {
    Min(1.0 - near, Max(0.0, 1.0 - depth / SharpSurfaceCutoffDepth))
  }

  /** `ramp * (1 - near)`, with `ramp` the value of `Ramp`: decreases caves
      gradually towards the floor. */
  function FadeForScale(near: real, ramp: real): real {
    ramp * (1.0 - near)
  }

  /** `max(0, 1 - depth / gradual)`. A zero `gradual` divides a positive
      depth by zero, which in floating point is infinite and clamps the ramp to zero. */
  function Ramp(gradual: real, depth: real): real {
    if gradual == 0.0 then 0.0 else Max(0.0, 1.0 - depth / gradual)
  }

  /** The broad-scale fade term: `max(0, |fadeNoise| + 2 * (1 - amountOfCaves) - 1)`. */
  function BroadFade(amountOfCaves: real, fadeNoise: real): real {
    Max(0.0, Abs(fadeNoise) + 2.0 * (1.0 - amountOfCaves) - 1.0)
  }

  /** `(1 - rawAmount) * (max(fadeForSurfaceCutoff, fadeForScale) + broadFade)`. */
  function Increase(rawAmount: real, fadeForSurfaceCutoff: real, fadeForScale: real, broadFade: real): real {
    (1.0 - rawAmount) * (Max(fadeForSurfaceCutoff, fadeForScale) + broadFade)
  }

  /** `noiseLevelIncrease` for a position at `depth` with fade noise `fadeNoise`. */
  function NoiseLevelIncrease(s: CaveSettings, depth: real, fadeNoise: real): real {
    Increase(s.rawAmount,
             FadeForSurfaceCutoff(s.amountofCavesNearSurface, depth),
             FadeForScale(s.amountofCavesNearSurface, Ramp(s.gradualIncreaseOverDepth, depth)),
             BroadFade(s.amountOfCaves, fadeNoise))
  }

  /** The cave rule at one position. */
  predicate IsCave(s: CaveSettings, depth: real, caveNoise: real, fadeNoise: real) {
    depth > MinDepth && caveNoise > s.rawAmount + NoiseLevelIncrease(s, depth, fadeNoise)
  }

  lemma MulNonNegReal(a: real, b: real)
    requires a >= 0.0 && b >= 0.0
    ensures a * b >= 0.0
  {
  }

  /** `a * x <= a * y` for `0 <= a` and `x <= y`. */
  lemma MulMonotone(a: real, x: real, y: real)
    requires a >= 0.0 && x <= y
    ensures a * x <= a * y
  {
    assert a * y - a * x == a * (y - x);
    MulNonNegReal(a, y - x);
  }

  /** `Increase` grows with each of its fade terms while `rawAmount <= 1`. */
  lemma {:induction false} IncreaseMonotone(raw: real, a1: real, a2: real, c1: real, c2: real, b1: real, b2: real)
    requires raw <= 1.0 && a2 <= a1 && c2 <= c1 && b2 <= b1
    ensures Increase(raw, a2, c2, b2) <= Increase(raw, a1, c1, b1)
  {
    MulMonotone(1.0 - raw, Max(a2, c2) + b2, Max(a1, c1) + b1);
  }

  /** ... and is never negative when its fade terms are not. */
  lemma {:induction false} IncreaseNonNegativeTerms(raw: real, a: real, c: real, b: real)
    requires raw <= 1.0 && a >= 0.0 && c >= 0.0 && b >= 0.0
    ensures Increase(raw, a, c, b) >= 0.0
  {
    MulNonNegReal(1.0 - raw, Max(a, c) + b);
  }

  /** With `amountofCavesNearSurface <= 1` none of the fade terms is negative. */
  lemma FadeTermsNonNegative(s: CaveSettings, depth: real, fadeNoise: real)
    requires s.amountofCavesNearSurface <= 1.0
    ensures Ramp(s.gradualIncreaseOverDepth, depth) >= 0.0
    ensures FadeForScale(s.amountofCavesNearSurface, Ramp(s.gradualIncreaseOverDepth, depth)) >= 0.0
    ensures BroadFade(s.amountOfCaves, fadeNoise) >= 0.0
  {
    MulNonNegReal(Ramp(s.gradualIncreaseOverDepth, depth), 1.0 - s.amountofCavesNearSurface);
  }

  /** With `amountofCavesNearSurface <= 1` and `rawAmount <= 1` the increase is never negative. */
  lemma {:induction false} IncreaseNonNegative(s: CaveSettings, depth: real, fadeNoise: real)
    requires s.amountofCavesNearSurface <= 1.0 && s.rawAmount <= 1.0
    ensures NoiseLevelIncrease(s, depth, fadeNoise) >= 0.0
  {
    FadeTermsNonNegative(s, depth, fadeNoise);
    IncreaseNonNegativeTerms(s.rawAmount,
      FadeForSurfaceCutoff(s.amountofCavesNearSurface, depth),
      FadeForScale(s.amountofCavesNearSurface, Ramp(s.gradualIncreaseOverDepth, depth)),
      BroadFade(s.amountOfCaves, fadeNoise));
  }

  /** Hence a cave's noise always exceeds `rawAmount`. */
  lemma CaveNoiseAboveRaw(s: CaveSettings, depth: real, caveNoise: real, fadeNoise: real)
    requires s.amountofCavesNearSurface <= 1.0 && s.rawAmount <= 1.0
    requires IsCave(s, depth, caveNoise, fadeNoise)
    ensures caveNoise > s.rawAmount
  {
    IncreaseNonNegative(s, depth, fadeNoise);
  }

  /** The gradual fade shrinks as `amountofCavesNearSurface` grows. */
  lemma {:induction false} ScaleFallsWithNearSurface(ramp: real, near1: real, near2: real)
    requires ramp >= 0.0 && near1 <= near2
    ensures FadeForScale(near2, ramp) <= FadeForScale(near1, ramp)
  {
    assert ramp * (1.0 - near1) - ramp * (1.0 - near2) == ramp * (near2 - near1);
    MulNonNegReal(ramp, near2 - near1);
  }

  /** Raising `amountofCavesNearSurface`, everything else fixed, never raises the increase. */
  lemma {:induction false} IncreaseFallsWithNearSurface(s: CaveSettings, near2: real, depth: real, fadeNoise: real)
    requires s.amountofCavesNearSurface <= near2 && s.rawAmount <= 1.0
    ensures NoiseLevelIncrease(s.(amountofCavesNearSurface := near2), depth, fadeNoise) <= NoiseLevelIncrease(s, depth, fadeNoise)
  {
    var near1, g := s.amountofCavesNearSurface, s.gradualIncreaseOverDepth;
    ScaleFallsWithNearSurface(Ramp(g, depth), near1, near2);
    IncreaseMonotone(s.rawAmount,
      FadeForSurfaceCutoff(near1, depth), FadeForSurfaceCutoff(near2, depth),
      FadeForScale(near1, Ramp(g, depth)), FadeForScale(near2, Ramp(g, depth)),
      BroadFade(s.amountOfCaves, fadeNoise), BroadFade(s.amountOfCaves, fadeNoise));
  }

  /** So raising `amountofCavesNearSurface` never turns a cave off. */
  lemma NearSurfaceKeepsCaves(s: CaveSettings, near2: real, depth: real, caveNoise: real, fadeNoise: real)
    requires s.amountofCavesNearSurface <= near2 && s.rawAmount <= 1.0
    requires IsCave(s, depth, caveNoise, fadeNoise)
    ensures IsCave(s.(amountofCavesNearSurface := near2), depth, caveNoise, fadeNoise)
  {
    IncreaseFallsWithNearSurface(s, near2, depth, fadeNoise);
  }

  /** Raising `amountOfCaves`, everything else fixed, never raises the increase. */
  lemma {:induction false} IncreaseFallsWithAmount(s: CaveSettings, amount2: real, depth: real, fadeNoise: real)
    requires s.amountOfCaves <= amount2 && s.rawAmount <= 1.0
    ensures NoiseLevelIncrease(s.(amountOfCaves := amount2), depth, fadeNoise) <= NoiseLevelIncrease(s, depth, fadeNoise)
  {
    var near, g := s.amountofCavesNearSurface, s.gradualIncreaseOverDepth;
    IncreaseMonotone(s.rawAmount,
      FadeForSurfaceCutoff(near, depth), FadeForSurfaceCutoff(near, depth),
      FadeForScale(near, Ramp(g, depth)), FadeForScale(near, Ramp(g, depth)),
      BroadFade(s.amountOfCaves, fadeNoise), BroadFade(amount2, fadeNoise));
  }

  /** So raising `amountOfCaves` never turns a cave off. */
  lemma AmountKeepsCaves(s: CaveSettings, amount2: real, depth: real, caveNoise: real, fadeNoise: real)
    requires s.amountOfCaves <= amount2 && s.rawAmount <= 1.0
    requires IsCave(s, depth, caveNoise, fadeNoise)
    ensures IsCave(s.(amountOfCaves := amount2), depth, caveNoise, fadeNoise)
  {
    IncreaseFallsWithAmount(s, amount2, depth, fadeNoise);
  }

  /** Deep enough (at least 12 blocks and at least `gradualIncreaseOverDepth`
      below the floor) both surface fades vanish, leaving only the broad fade. */
  lemma {:induction false} DeepFadesVanish(s: CaveSettings, depth: real, fadeNoise: real)
    requires s.amountofCavesNearSurface <= 1.0 && s.gradualIncreaseOverDepth > 0.0
    requires depth >= SharpSurfaceCutoffDepth && depth >= s.gradualIncreaseOverDepth
    ensures FadeForSurfaceCutoff(s.amountofCavesNearSurface, depth) == 0.0
    ensures FadeForScale(s.amountofCavesNearSurface, Ramp(s.gradualIncreaseOverDepth, depth)) == 0.0
    ensures NoiseLevelIncrease(s, depth, fadeNoise) == (1.0 - s.rawAmount) * BroadFade(s.amountOfCaves, fadeNoise)
  {
    var g := s.gradualIncreaseOverDepth;
    assert depth / SharpSurfaceCutoffDepth >= 1.0;
    assert depth / g >= 1.0 by {
      assert depth >= g * 1.0;
    }
  }

  /** `CaveFacetProviderConfiguration`: six fields the configuration screen edits in place. */
  class CaveConfiguration {
    var amountOfCaves: real
    var width: real
    var height: real
    var amountofCavesNearSurface: real
    var gradualIncreaseOverDepth: real
    var rawAmount: real

    function Settings(): CaveSettings
      reads this
    {
      CaveSettings(amountOfCaves, width, height, amountofCavesNearSurface, gradualIncreaseOverDepth, rawAmount)
    }

    constructor ()
      ensures Settings() == DefaultSettings
    {
      amountOfCaves := 0.75;
      width := 1.0;
      height := 1.0;
      amountofCavesNearSurface := 0.5;
      gradualIncreaseOverDepth := 64.0;
      rawAmount := 0.3;
    }

    /** `copy(other)`: all six fields take `other`'s values; `other` is not changed. */
    method Copy(other: CaveConfiguration)
      modifies this
      ensures Settings() == old(other.Settings())
      ensures other != this ==> other.Settings() == old(other.Settings())
    {
      this.amountOfCaves := other.amountOfCaves;
      this.width := other.width;
      this.height := other.height;
      this.amountofCavesNearSurface := other.amountofCavesNearSurface;
      this.gradualIncreaseOverDepth := other.gradualIncreaseOverDepth;
      this.rawAmount := other.rawAmount;
    }
  }

  /** The depth of a position below the floor of its column. */
  function Depth(surface: map<Vec2, real>, p: Vec3): real
    requires Column(p) in surface
  {
    surface[Column(p)] - p.y as real
  }

  /** The flag the provider leaves at `p`: only target positions below the
      floor are evaluated; everything else keeps the initial `false`. */
  ghost predicate CaveAt(target: Box, surface: map<Vec2, real>, s: CaveSettings, caveNoise: Noise3, fadeNoise: Noise3, p: Vec3) {
    target.Contains(p) && Column(p) in surface && IsCave(s, Depth(surface, p), At3(caveNoise, p), At3(fadeNoise, p))
  }

  class CaveFacetProvider {
    var configuration: CaveConfiguration
    /** The sub-sampled ridged cave noise and the sub-sampled fade noise for a
        configured width and height (the widths scale the sampling frequencies). */
    const caveNoise: (real, real) -> Noise3
    const fadeCaveNoise: (real, real) -> Noise3

    constructor (cave: (real, real) -> Noise3, fade: (real, real) -> Noise3)
      ensures caveNoise == cave && fadeCaveNoise == fade
      ensures fresh(configuration) && configuration.Settings() == DefaultSettings
    {
      caveNoise := cave;
      fadeCaveNoise := fade;
      configuration := new CaveConfiguration();
    }

    /** `setConfiguration(c)`. */
    method SetConfiguration(c: CaveConfiguration)
      modifies this
      ensures configuration == c
    {
      configuration := c;
    }

    /** `process`: the facet's flags are exactly the cave rule on target
        positions below the floor, under the settings read at the start. */
    method Process(target: Box, border: Border, surface: SurfaceFacet) returns (facet: Field3<bool>)
      requires surface.Valid() && surface.target == target
      ensures fresh(facet) && facet.Valid()
      ensures facet.target == target && facet.border == border
      ensures var s := configuration.Settings();
        forall p :: p in facet.values ==>
          (facet.values[p] <==> CaveAt(target, surface.heights, s,
                                        caveNoise(s.width, s.height), fadeCaveNoise(s.width, s.height), p))
      ensures forall p :: p in facet.values && facet.values[p] ==> target.Contains(p) && Depth(surface.heights, p) > MinDepth
    {
      var s := configuration.Settings();
      var cave := caveNoise(s.width, s.height);
      var fade := fadeCaveNoise(s.width, s.height);
      facet := new Field3<bool>(target, border, false);
      var todo := Cells(target);
      ghost var done: set<Vec3> := {};
      while todo != {}
        invariant facet.Valid() && facet.target == target
        invariant done + todo == Cells(target) && done !! todo
        invariant forall p :: p in facet.values ==>
          (facet.values[p] <==> p in done && CaveAt(target, surface.heights, s, cave, fade, p))
        invariant forall p :: p in done ==> target.Contains(p)
        decreases |todo|
      {
        var pos :| pos in todo;
        TakeOne(Cells(target), done, todo, pos);
        ghost var before := facet.values;
        VisitPosition(facet, surface, s, cave, fade, pos);
        CaveStep(before, facet.values, done, target, surface.heights, s, cave, fade, pos);
        todo := todo - {pos};
        done := done + {pos};
      }
    }

    /** The loop body for target position `pos`: evaluate the rule when `pos` is below the floor. */
    method VisitPosition(facet: Field3<bool>, surface: SurfaceFacet, s: CaveSettings, cave: Noise3, fade: Noise3, pos: Vec3)
      requires facet.Valid() && surface.Valid() && surface.target == facet.target && facet.target.Contains(pos)
      modifies facet
      ensures facet.Valid()
      ensures Column(pos) in surface.heights
      ensures facet.values == old(facet.values)[pos := if Depth(surface.heights, pos) > MinDepth
        then IsCave(s, Depth(surface.heights, pos), At3(cave, pos), At3(fade, pos)) else old(facet.values)[pos]]
    {
      var depth := surface.heights[Column(pos)] - pos.y as real;
      if depth > MinDepth {
        var noiseValue := At3(cave, pos);
        var fadeForSurfaceCutoff := FadeForSurfaceCutoff(s.amountofCavesNearSurface, depth);
        var fadeForScale := FadeForScale(s.amountofCavesNearSurface, Ramp(s.gradualIncreaseOverDepth, depth));
        var noiseLevelIncrease := Increase(s.rawAmount, fadeForSurfaceCutoff, fadeForScale, BroadFade(s.amountOfCaves, At3(fade, pos)));
        facet.SetWorld(pos, noiseValue > s.rawAmount + noiseLevelIncrease);
      }
    }
  }

  /** One step of the provider's loop: evaluating `pos` extends the evaluated set by `pos`. */
  lemma CaveStep(before: map<Vec3, bool>, after: map<Vec3, bool>, done: set<Vec3>, target: Box,
                 surface: map<Vec2, real>, s: CaveSettings, cave: Noise3, fade: Noise3, pos: Vec3)
    requires forall p :: p in before ==> (before[p] <==> p in done && CaveAt(target, surface, s, cave, fade, p))
    requires target.Contains(pos) && pos !in done && Column(pos) in surface && pos in before
    requires after == before[pos := if Depth(surface, pos) > MinDepth
        then IsCave(s, Depth(surface, pos), At3(cave, pos), At3(fade, pos)) else before[pos]]
    ensures forall p :: p in after ==> (after[p] <==> p in done + {pos} && CaveAt(target, surface, s, cave, fade, p))
  {
    forall p | p in after
      ensures after[p] <==> p in done + {pos} && CaveAt(target, surface, s, cave, fade, p)
    {
      if p != pos {
        assert after[p] == before[p];
      }
    }
  }
}
