/** `LavaHutProvider`: places huts on stilts above lava lakes. A column gets
    a hut when the floor 15 blocks away in each of the four axis directions is
    below the lava level, the ceiling is at least 25 blocks above the lava,
    its spawn noise exceeds 0.998, and the hut's anchor (5 to 8 blocks above
    the lava) lies in the facet's region. */
module LavaHutProvider {
  import opened Geometry
  import opened Facets
  import InfernalTreeProvider

  const MinSpawnHeight: int := 25
  const MinLavaPadding: int := 15
  const MinHutHeight: int := 5
  const MaxHutHeight: int := 8
  const SpawnThreshold: real := 0.998

  /** The four white-noise functions the provider draws from. */
  datatype HutNoise = HutNoise(spawn: Noise2, height: Noise2, length: Noise2, dir: Noise2)

  /** `isOverLava`: the column is in the surface facet's area and its floor is below the lava level. */
  ghost predicate IsOverLava(area: Area, heights: map<Vec2, real>, c: Vec2, lavaLevel: int) {
    area.Contains(c) && c in heights && heights[c] < lavaLevel as real
  }

  /** `hutHeight`: `lavaLevel + clamp(|noise * 8|, 5, 8)`, as a float. */
  function HutHeight(lavaLevel: int, n: real): (h: real)
    ensures (lavaLevel + MinHutHeight) as real <= h <= (lavaLevel + MaxHutHeight) as real
  {
    lavaLevel as real + Clamp(Abs(n * MaxHutHeight as real), MinHutHeight as real, MaxHutHeight as real)
  }

  /** `(int) hutHeight`: the anchor's y, from 5 to 8 blocks above the lava. */
  function AnchorY(lavaLevel: int, n: real): (y: int)
    ensures lavaLevel + MinHutHeight <= y <= lavaLevel + MaxHutHeight
  {
    Trunc(HutHeight(lavaLevel, n))
  }

  /** The length bucket of `|noise|`: 5 up to 0.3, 7 up to 0.8, 9 above. Always odd. */
  function HutLength(n: real): (len: int)
    ensures len == 5 || len == 7 || len == 9
    ensures Abs(n) <= 0.3 <==> len == 5
    ensures Abs(n) > 0.8 <==> len == 9
  {
    var lengthNoiseVal := Abs(n);
    if lengthNoiseVal <= 0.3 then 5 else if lengthNoiseVal <= 0.8 then 7 else 9
  }

  /** `|round(noise * 3)|`: an index into the four horizontal directions when
      the noise lies in [-1, 1]. */
  function DirIndex(n: real): (i: int)
    ensures i >= 0
    ensures -1.0 <= n <= 1.0 ==> i <= 3
  {
    var r := Round(n * 3.0);
    if r < 0 then -r else r
  }

  /** The spawn conditions for the hut of column `c` (its anchor being `(c.x, AnchorY, c.y)`). */
  ghost predicate HutSite(region: Box, area: Area, heights: map<Vec2, real>, ceiling: map<Vec2, real>,
                          lavaLevel: int, n: HutNoise, c: Vec2)
  {
    && IsOverLava(area, heights, Vec2(c.x + MinLavaPadding, c.y), lavaLevel)
    && IsOverLava(area, heights, Vec2(c.x - MinLavaPadding, c.y), lavaLevel)
    && IsOverLava(area, heights, Vec2(c.x, c.y + MinLavaPadding), lavaLevel)
    && IsOverLava(area, heights, Vec2(c.x, c.y - MinLavaPadding), lavaLevel)
    && c in ceiling && ceiling[c] - lavaLevel as real >= MinSpawnHeight as real
    && At2(n.spawn, c) > SpawnThreshold
    && region.Contains(Vec3(c.x, AnchorY(lavaLevel, At2(n.height, c)), c.y))
  }

  /** The hut a column gets: its length bucket, the default height, and its direction. */
  function HutFor(n: HutNoise, c: Vec2): LavaHut
    requires -1.0 <= At2(n.dir, c) <= 1.0
  {
    LavaHut(HutLength(At2(n.length, c)), DefaultHutHeight, DirectionAt(DirIndex(At2(n.dir, c))))
  }

  /** The huts placed from the columns of `done`: keyed by anchor, one per spawning column. */
  ghost predicate Placed(entries: map<Vec3, LavaHut>, done: set<Vec2>, region: Box, area: Area,
                         heights: map<Vec2, real>, ceiling: map<Vec2, real>, lavaLevel: int, n: HutNoise)
    requires forall x: int, y: int :: -1.0 <= n.dir(x, y) <= 1.0
  {
    && (forall p :: p in entries <==>
         Column(p) in done && p.y == AnchorY(lavaLevel, At2(n.height, Column(p)))
         && HutSite(region, area, heights, ceiling, lavaLevel, n, Column(p)))
    && (forall p :: p in entries ==> entries[p] == HutFor(n, Column(p)))
  }

  /** Visiting one more column adds its hut exactly when it is a hut site. */
  lemma PlacedAdd(entries: map<Vec3, LavaHut>, done: set<Vec2>, region: Box, area: Area,
                  heights: map<Vec2, real>, ceiling: map<Vec2, real>, lavaLevel: int, n: HutNoise, c: Vec2)
    requires forall x: int, y: int :: -1.0 <= n.dir(x, y) <= 1.0
    requires Placed(entries, done, region, area, heights, ceiling, lavaLevel, n) && c !in done
    ensures var a := Vec3(c.x, AnchorY(lavaLevel, At2(n.height, c)), c.y);
      a !in entries &&
      if HutSite(region, area, heights, ceiling, lavaLevel, n, c)
      then Placed(entries[a := HutFor(n, c)], done + {c}, region, area, heights, ceiling, lavaLevel, n)
      else Placed(entries, done + {c}, region, area, heights, ceiling, lavaLevel, n)
  {
    var a := Vec3(c.x, AnchorY(lavaLevel, At2(n.height, c)), c.y);
    assert Column(a) == c;
  }

  class LavaHutProvider {
    const noise: HutNoise

    /** White noise lies in [-1, 1]; the direction index relies on it. */
    ghost predicate Valid() {
      forall x: int, y: int :: -1.0 <= noise.dir(x, y) <= 1.0
    }

    constructor (n: HutNoise)
      requires forall x: int, y: int :: -1.0 <= n.dir(x, y) <= 1.0
      ensures noise == n && Valid()
    {
      noise := n;
    }

    /** `process`: a hut is anchored exactly above each hut site of the surface
        facet's area, 5 to 8 blocks above the lava, with its length bucket and
        direction. */
    method Process(target: Box, border: Border, surface: SurfaceFacet, ceiling: Field2<real>, lava: LavaLevelFacet)
      returns (facet: Sparse3<LavaHut>)
      requires Valid() && surface.Valid() && ceiling.Valid()
      requires InfernalTreeProvider.Covers(ceiling.WorldArea(), surface.WorldArea())
      ensures fresh(facet) && facet.Valid()
      ensures facet.target == target && facet.border == border.ExtendBy(20, 30, 20)
      ensures Placed(facet.entries, Columns(surface.WorldArea()), facet.Region(), surface.WorldArea(),
                     surface.heights, ceiling.values, lava.lavaLevel, noise)
      ensures forall p :: p in facet.entries ==> lava.lavaLevel + MinHutHeight <= p.y <= lava.lavaLevel + MaxHutHeight
    {
      facet := new Sparse3<LavaHut>(target, border.ExtendBy(20, 30, 20));
      var lavaLevel := lava.lavaLevel;
      var todo := Columns(surface.WorldArea());
      ghost var done: set<Vec2> := {};
      while todo != {}
        invariant fresh(facet) && facet.Valid()
        invariant facet.target == target && facet.border == border.ExtendBy(20, 30, 20)
        invariant done + todo == Columns(surface.WorldArea()) && done !! todo
        invariant Placed(facet.entries, done, facet.Region(), surface.WorldArea(), surface.heights, ceiling.values, lavaLevel, noise)
        decreases |todo|
      {
        var c :| c in todo;
        TakeOne(Columns(surface.WorldArea()), done, todo, c);
        ColumnTurn(facet, surface, ceiling, lavaLevel, done, c);
        todo := todo - {c};
        done := done + {c};
      }
    }

    /** One turn of the loop of `process`: column `c` is placed. */
    method ColumnTurn(facet: Sparse3<LavaHut>, surface: SurfaceFacet, ceiling: Field2<real>, lavaLevel: int,
                      ghost done: set<Vec2>, c: Vec2)
      requires Valid() && surface.Valid() && ceiling.Valid() && facet.Valid()
      requires InfernalTreeProvider.Covers(ceiling.WorldArea(), surface.WorldArea())
      requires surface.WorldArea().Contains(c) && c !in done
      requires Placed(facet.entries, done, facet.Region(), surface.WorldArea(), surface.heights, ceiling.values, lavaLevel, noise)
      modifies facet
      ensures facet.Valid()
      ensures Placed(facet.entries, done + {c}, facet.Region(), surface.WorldArea(), surface.heights, ceiling.values, lavaLevel, noise)
    {
      PlacedAdd(facet.entries, done, facet.Region(), surface.WorldArea(), surface.heights, ceiling.values, lavaLevel, noise, c);
      VisitColumn(facet, surface, ceiling, lavaLevel, c);
    }

    /** The loop body for column `c`. */
    method VisitColumn(facet: Sparse3<LavaHut>, surface: SurfaceFacet, ceiling: Field2<real>, lavaLevel: int, c: Vec2)
      requires Valid() && surface.Valid() && ceiling.Valid() && facet.Valid()
      requires InfernalTreeProvider.Covers(ceiling.WorldArea(), surface.WorldArea())
      requires surface.WorldArea().Contains(c)
      modifies facet
      ensures facet.Valid()
      ensures var a := Vec3(c.x, AnchorY(lavaLevel, At2(noise.height, c)), c.y);
        if HutSite(facet.Region(), surface.WorldArea(), surface.heights, ceiling.values, lavaLevel, noise, c)
        then facet.entries == old(facet.entries)[a := HutFor(noise, c)]
        else facet.entries == old(facet.entries)
    {
      var ceilingHeight := ceiling.values[c];
      var hutHeight := lavaLevel as real + Clamp(Abs(At2(noise.height, c) * MaxHutHeight as real), MinHutHeight as real, MaxHutHeight as real);
      var overLava := IsOverLavaAt(surface, Vec2(c.x + MinLavaPadding, c.y), lavaLevel);
      overLava := overLava && IsOverLavaAt(surface, Vec2(c.x - MinLavaPadding, c.y), lavaLevel);
      overLava := overLava && IsOverLavaAt(surface, Vec2(c.x, c.y + MinLavaPadding), lavaLevel);
      overLava := overLava && IsOverLavaAt(surface, Vec2(c.x, c.y - MinLavaPadding), lavaLevel);
      if overLava
        && ceilingHeight - lavaLevel as real >= MinSpawnHeight as real
        && At2(noise.spawn, c) > SpawnThreshold
        && facet.Region().Contains(Vec3(c.x, Trunc(hutHeight), c.y))
      {
        var hutLength;
        var lengthNoiseVal := Abs(At2(noise.length, c));
        if lengthNoiseVal <= 0.3 {
          hutLength := 5;
        } else if lengthNoiseVal <= 0.8 {
          hutLength := 7;
        } else {
          hutLength := 9;
        }
        var r := Round(At2(noise.dir, c) * 3.0);
        var dirIndex := if r < 0 then -r else r;
        var lavaHut := LavaHut(hutLength, DefaultHutHeight, DirectionAt(dirIndex));
        facet.SetWorld(Vec3(c.x, Trunc(hutHeight), c.y), lavaHut);
      }
    }

    /** `isOverLava(surfaceHeightFacet, x, y, lavaLevel)`. */
    function IsOverLavaAt(surface: SurfaceFacet, c: Vec2, lavaLevel: int): (b: bool)
      reads surface
      requires surface.Valid()
      ensures b <==> IsOverLava(surface.WorldArea(), surface.heights, c, lavaLevel)
    {
      surface.WorldArea().Contains(c) && surface.heights[c] < lavaLevel as real
    }
  }

  /** A hut stands only where lava lies 15 blocks away in all four axis
      directions, and where there are at least 25 blocks from the lava to the ceiling. */
  lemma HutSurroundedByLava(entries: map<Vec3, LavaHut>, done: set<Vec2>, region: Box, area: Area,
                            heights: map<Vec2, real>, ceiling: map<Vec2, real>, lavaLevel: int, n: HutNoise, p: Vec3)
    requires forall x: int, y: int :: -1.0 <= n.dir(x, y) <= 1.0
    requires Placed(entries, done, region, area, heights, ceiling, lavaLevel, n) && p in entries
    ensures var c := Column(p);
      && heights[Vec2(c.x + MinLavaPadding, c.y)] < lavaLevel as real
      && heights[Vec2(c.x - MinLavaPadding, c.y)] < lavaLevel as real
      && heights[Vec2(c.x, c.y + MinLavaPadding)] < lavaLevel as real
      && heights[Vec2(c.x, c.y - MinLavaPadding)] < lavaLevel as real
      && ceiling[c] >= (lavaLevel + MinSpawnHeight) as real
      && region.Contains(p)
  {
  }
}
