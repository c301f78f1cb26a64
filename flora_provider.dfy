/** `FloraProvider`: marks the block just above the floor of a column as a
    flora spot when it is in the facet's region, above the lava level, and the
    column's white noise exceeds 0.96. */
module FloraProvider {
  import opened Geometry
  import opened Facets

  const FloraThreshold: real := 0.96

  /** Whether the flora facet marks `p`, given the surface facet's area and
      heights, the lava level and the white noise. */
  ghost predicate FloraSpot(area: Area, heights: map<Vec2, real>, lavaLevel: int, noise: Noise2, p: Vec3) {
    && area.Contains(Column(p))
    && Column(p) in heights
    && p.y == Ceil(heights[Column(p)])
    && p.y > lavaLevel
    && At2(noise, Column(p)) > FloraThreshold
  }

  class FloraProvider {
    const noise: Noise2

    constructor (n: Noise2)
      ensures noise == n
    {
      noise := n;
    }

    /** `process`: the flora facet holds exactly the flora spots of its region.
        A spot sits at the ceiling of the column's floor height, so a column has
        at most one, and every spot is strictly above the lava. */
    method Process(target: Box, border: Border, surface: SurfaceFacet, lava: LavaLevelFacet) returns (facet: Field3<bool>)
      requires surface.Valid()
      ensures fresh(facet) && facet.Valid()
      ensures facet.target == target && facet.border == border
      ensures forall p :: p in facet.values ==>
        (facet.values[p] <==> FloraSpot(surface.WorldArea(), surface.heights, lava.lavaLevel, noise, p))
      ensures forall p, q :: p in facet.values && q in facet.values && facet.values[p] && facet.values[q] && Column(p) == Column(q) ==> p == q
      ensures forall p :: p in facet.values && facet.values[p] ==> p.y > lava.lavaLevel
    {
      facet := new Field3<bool>(target, border, false);
      var todo := Columns(surface.WorldArea());
      while todo != {}
        invariant facet.Valid() && todo <= Columns(surface.WorldArea())
        invariant forall p :: p in facet.values ==>
          (facet.values[p] <==> Column(p) !in todo && FloraSpot(surface.WorldArea(), surface.heights, lava.lavaLevel, noise, p))
        decreases |todo|
      {
        var c :| c in todo;
        var surfaceHeight := Ceil(surface.heights[c]);
        if facet.Region().Contains(Vec3(c.x, surfaceHeight, c.y))
          && surfaceHeight > lava.lavaLevel
          && At2(noise, c) > FloraThreshold
        {
          facet.SetWorld(Vec3(c.x, surfaceHeight, c.y), true);
        }
        todo := todo - {c};
      }
    }
  }
}
