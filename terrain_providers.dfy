/** The terrain height providers: the cavern floor (`InfernoSurfaceProvider`),
    its ceiling (`InfernoCeilingProvider`), the wall-forming raise of the
    floor (`ElevationProvider`) and the lava level (`LavaLevelProvider`).
    Each fills or updates its facet column by column; the engine's
    iteration over a facet's world area is an iteration over its set of
    columns in an order the model leaves open. */
module InfernoSurfaceProvider {
  import opened Geometry
  import opened Facets

  /** The floor height of a column: `noise(x, z) * 20 - depth`. With the
      simplex noise in [-1, 1] it stays within 20 blocks of `-depth`. */
  function SurfaceHeight(noise: Noise2, depth: int, c: Vec2): (h: real)
    ensures -1.0 <= At2(noise, c) <= 1.0 ==> -(depth as real) - 20.0 <= h <= -(depth as real) + 20.0
  {
    At2(noise, c) * 20.0 - depth as real
  }

  class SurfaceProvider {
    const infernoDepth: int
    const surfaceNoise: Noise2

    /** `new InfernoSurfaceProvider(depth)` with the noise `setSeed` builds. */
    constructor (depth: int, noise: Noise2)
      ensures infernoDepth == depth && surfaceNoise == noise
    {
      infernoDepth := depth;
      surfaceNoise := noise;
    }

    /** `process`: a fresh facet whose base surface height is the depth and
        whose every world-area column holds `SurfaceHeight`. */
    method Process(target: Box, border: Border) returns (facet: SurfaceFacet)
      ensures fresh(facet) && facet.Valid()
      ensures facet.target == target && facet.border == border
      ensures facet.baseSurfaceHeight == infernoDepth
      ensures forall c :: c in facet.heights ==> facet.heights[c] == SurfaceHeight(surfaceNoise, infernoDepth, c)
    {
      facet := new SurfaceFacet(target, border);
      facet.SetBaseSurfaceHeight(infernoDepth);
      var todo := Columns(facet.WorldArea());
      while todo != {}
        invariant facet.Valid() && todo <= Columns(facet.WorldArea())
        invariant facet.baseSurfaceHeight == infernoDepth
        invariant forall c :: c in facet.heights && c !in todo ==> facet.heights[c] == SurfaceHeight(surfaceNoise, infernoDepth, c)
        decreases |todo|
      {
        var c :| c in todo;
        facet.SetWorld(c, At2(surfaceNoise, c) * 20.0 - infernoDepth as real);
        todo := todo - {c};
      }
    }
  }

  /** Two facets made by the same provider agree on every column they share,
      whatever their regions: a column's height depends on the column alone. */
  lemma OverlappingRegionsAgree(noise: Noise2, depth: int, a: map<Vec2, real>, b: map<Vec2, real>)
    requires forall c :: c in a ==> a[c] == SurfaceHeight(noise, depth, c)
    requires forall c :: c in b ==> b[c] == SurfaceHeight(noise, depth, c)
    ensures forall c :: c in a && c in b ==> a[c] == b[c]
  {
  }
}

module InfernoCeilingProvider {
  import opened Geometry
  import opened Facets

  /** The ceiling height of a column: `noise(x, z) * 20 - baseSurfaceHeight + infernoHeight`;
      with the noise in [-1, 1] it stays within 20 blocks of `infernoHeight - baseSurfaceHeight`. */
  function CeilingHeight(noise: Noise2, baseSurfaceHeight: int, infernoHeight: int, c: Vec2): (h: real)
    ensures -1.0 <= At2(noise, c) <= 1.0 ==>
      (infernoHeight - baseSurfaceHeight) as real - 20.0 <= h <= (infernoHeight - baseSurfaceHeight) as real + 20.0
  {
    At2(noise, c) * 20.0 - baseSurfaceHeight as real + infernoHeight as real
  }

  class CeilingProvider {
    const infernoHeight: int
    const ceilingNoise: Noise2

    constructor (height: int, noise: Noise2)
      ensures infernoHeight == height && ceilingNoise == noise
    {
      infernoHeight := height;
      ceilingNoise := noise;
    }

    /** `process`: a fresh ceiling facet over the world area. Of the surface
        facet only the base surface height is read, so per-column floor heights
        (and any later elevation) cannot change the ceiling. */
    method Process(target: Box, border: Border, surface: SurfaceFacet) returns (facet: Field2<real>)
      ensures fresh(facet) && facet.Valid()
      ensures facet.target == target && facet.border == border
      ensures forall c :: c in facet.values ==>
        facet.values[c] == CeilingHeight(ceilingNoise, surface.baseSurfaceHeight, infernoHeight, c)
    {
      facet := new Field2<real>(target, border, 0.0);
      var baseSurfaceHeight := surface.baseSurfaceHeight;
      var todo := Columns(facet.WorldArea());
      while todo != {}
        invariant facet.Valid() && todo <= Columns(facet.WorldArea())
        invariant forall c :: c in facet.values && c !in todo ==>
          facet.values[c] == CeilingHeight(ceilingNoise, baseSurfaceHeight, infernoHeight, c)
        decreases |todo|
      {
        var c :| c in todo;
        facet.SetWorld(c, At2(ceilingNoise, c) * 20.0 - baseSurfaceHeight as real + infernoHeight as real);
        todo := todo - {c};
      }
    }
  }
}

module ElevationProvider {
  import opened Geometry
  import opened Facets

  const MaxElevation: real := 30.0

  /** How much a column is raised: `clamp(noise(x, z) * 30, 0, 30)`. At most
      30, never negative, and nothing where the noise is not positive. */
  function Elevation(noise: Noise2, c: Vec2): (e: real)
    ensures 0.0 <= e <= MaxElevation
    ensures At2(noise, c) <= 0.0 ==> e == 0.0
    ensures 0.0 <= At2(noise, c) <= 1.0 ==> e == At2(noise, c) * MaxElevation
  {
    Clamp(At2(noise, c) * MaxElevation, 0.0, MaxElevation)
  }

  class ElevationProvider {
    const elevationNoise: Noise2

    constructor (noise: Noise2)
      ensures elevationNoise == noise
    {
      elevationNoise := noise;
    }

    /** `process`: raise every column of the existing surface facet, in place,
        by `Elevation`; no facet is created and the base surface height stays. */
    method Process(facet: SurfaceFacet)
      requires facet.Valid()
      modifies facet
      ensures facet.Valid()
      ensures facet.baseSurfaceHeight == old(facet.baseSurfaceHeight)
      ensures forall c :: c in facet.heights ==> facet.heights[c] == old(facet.heights[c]) + Elevation(elevationNoise, c)
      ensures forall c :: c in facet.heights ==> old(facet.heights[c]) <= facet.heights[c] <= old(facet.heights[c]) + MaxElevation
      ensures forall c :: c in facet.heights && At2(elevationNoise, c) <= 0.0 ==> facet.heights[c] == old(facet.heights[c])
    {
      var todo := Columns(facet.WorldArea());
      while todo != {}
        invariant facet.Valid() && todo <= Columns(facet.WorldArea())
        invariant facet.baseSurfaceHeight == old(facet.baseSurfaceHeight)
        invariant forall c :: c in facet.heights ==>
          facet.heights[c] == old(facet.heights[c]) + (if c in todo then 0.0 else Elevation(elevationNoise, c))
        decreases |todo|
      {
        var c :| c in todo;
        var elevationHeight := At2(elevationNoise, c) * MaxElevation;
        elevationHeight := Clamp(elevationHeight, 0.0, MaxElevation);
        facet.SetWorld(c, facet.heights[c] + elevationHeight);
        todo := todo - {c};
      }
    }
  }
}

module LavaLevelProvider {
  import opened Geometry
  import opened Facets

  /** The provider keeps a configured level and no noise: its result does not depend on the seed. */
  class LavaLevelProvider {
    const lavaLevel: int

    /** `new LavaLevelProvider()`. */
    constructor Default()
      ensures lavaLevel == 0
    {
      lavaLevel := 0;
    }

    /** `new LavaLevelProvider(lavaLevel)`. */
    constructor (level: int)
      ensures lavaLevel == level
    {
      lavaLevel := level;
    }

    /** `process`: one integer level for the whole facet, the configured level
        less the base surface height. */
    method Process(target: Box, border: Border, surface: SurfaceFacet) returns (facet: LavaLevelFacet)
      ensures fresh(facet)
      ensures facet.target == target && facet.border == border
      ensures facet.lavaLevel == lavaLevel - surface.baseSurfaceHeight
    {
      facet := new LavaLevelFacet(target, border);
      facet.SetLavaLevel(lavaLevel - surface.baseSurfaceHeight);
    }
  }

  /** With the default provider the level is the negated base surface height. */
  method DefaultLevel(target: Box, border: Border, surface: SurfaceFacet) returns (level: int)
    ensures level == -surface.baseSurfaceHeight
  {
    var provider := new LavaLevelProvider.Default();
    var facet := provider.Process(target, border, surface);
    level := facet.lavaLevel;
  }
}
