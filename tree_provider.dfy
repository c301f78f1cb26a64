/** `InfernalTreeProvider`: hangs trees from the cavern ceiling where there
    is more than 15 blocks of room below it and the spawn noise exceeds 0.997.
    A tree's trunk height comes from a smooth noise clamped to [4, 6]; its
    canopy profile has one radius per block of trunk plus one. */
module InfernalTreeProvider {
  import opened Geometry
  import opened Facets
  import opened TreeFacets

  const MinTrunkHeight: int := 4
  const MaxTrunkHeight: int := 6
  const MinSpawnSpace: int := 15
  const SpawnThreshold: real := 0.997

  /** `inner` lies inside `outer`. */
  predicate Covers(outer: Area, inner: Area) {
    || inner.min.x > inner.max.x || inner.min.y > inner.max.y
    || (outer.min.x <= inner.min.x && inner.max.x <= outer.max.x && outer.min.y <= inner.min.y && inner.max.y <= outer.max.y)
  }

  /** `(int) clamp(noise * 6, 4, 6)`: always between 4 and 6. */
  function TrunkHeight(heightNoise: Noise2, c: Vec2): (h: int)
    ensures MinTrunkHeight <= h <= MaxTrunkHeight
  {
    Trunc(Clamp(At2(heightNoise, c) * MaxTrunkHeight as real, MinTrunkHeight as real, MaxTrunkHeight as real))
  }

  /** The canopy radii `generateCanopy` lists for a trunk of height `h`, top
      layer first: zero up to the canopy start `h / 2 + 1`, then radii that
      shrink by one per layer down to 1 at the bottom. */
  function CanopyProfile(h: int): (s: seq<int>)
    ensures h < 0 ==> s == []
    ensures h >= 0 ==> |s| == h + 1
    ensures forall i :: 0 <= i < |s| && i < h / 2 + 1 ==> s[i] == 0
    ensures forall i :: 0 <= i < |s| && i >= h / 2 + 1 ==> s[i] >= 1
    ensures forall i :: h / 2 + 1 <= i < h ==> s[i] == s[i + 1] + 1
    ensures h >= 1 ==> s[h] == 1 && s[h / 2 + 1] == h - h / 2
  {
    if h < 0 then [] else seq(h + 1, i => if i >= h / 2 + 1 then h - i + 1 else 0)
  }

  /** A trunk of six gets three empty layers, then radii 3, 2, 1 (after the
      layer at the anchor itself). */
  lemma CanopyOfSix()
    ensures CanopyProfile(6) == [0, 0, 0, 0, 3, 2, 1]
  {
    var s := CanopyProfile(6);
    assert |s| == 7;
    assert s[0] == 0 && s[1] == 0 && s[2] == 0 && s[3] == 0;
    assert s[6] == 1 && s[5] == 2 && s[4] == 3;
  }

  /** `generateCanopy(trunkHeight)`: the loop that builds the radii list. */
  method GenerateCanopy(trunkHeight: int) returns (canopySize: seq<int>)
    ensures canopySize == CanopyProfile(trunkHeight)
  {
    canopySize := [];
    var canopyStart := trunkHeight / 2 + 1;
    var canopyCount := trunkHeight - canopyStart + 1;
    var height := 0;
    while height < trunkHeight + 1
      invariant trunkHeight >= 0 ==> 0 <= height <= trunkHeight + 1
      invariant trunkHeight < 0 ==> height == 0
      invariant |canopySize| == height
      invariant trunkHeight >= 0 ==> canopyCount == (if height <= canopyStart then trunkHeight - canopyStart + 1 else trunkHeight - height + 1)
      invariant forall i :: 0 <= i < height ==> canopySize[i] == (if i >= canopyStart then trunkHeight - i + 1 else 0)
    {
      if height >= canopyStart {
        canopySize := canopySize + [canopyCount];
        canopyCount := canopyCount - 1;
      } else {
        canopySize := canopySize + [0];
      }
      height := height + 1;
    }
  }

  /** Whether a tree is anchored at `p`: `p` hangs from the floored ceiling of
      its column, lies in the tree facet's region, has more than 15 blocks of
      room above the floor, and the column's spawn noise passes the threshold. */
  ghost predicate TreeSite(region: Box, ceilingArea: Area, ceiling: map<Vec2, real>, surface: map<Vec2, real>,
                           spawnNoise: Noise2, p: Vec3)
  {
    && ceilingArea.Contains(Column(p))
    && Column(p) in ceiling && Column(p) in surface
    && p.y == Floor(ceiling[Column(p)])
    && region.Contains(p)
    && (p.y as real) - surface[Column(p)] > MinSpawnSpace as real
    && At2(spawnNoise, Column(p)) > SpawnThreshold
  }

  /** The tree a column gets. */
  function TreeFor(heightNoise: Noise2, c: Vec2): InfernalTree {
    InfernalTree(TrunkHeight(heightNoise, c), CanopyProfile(TrunkHeight(heightNoise, c)))
  }

  /** The list names every tree of the map, and each once. */
  ghost predicate Listed(trees: map<Vec3, InfernalTree>, ps: seq<PosRef>) {
    && (forall i :: 0 <= i < |ps| ==> ps[i].pos in trees)
    && (forall p :: p in trees ==> exists i :: 0 <= i < |ps| && ps[i].pos == p)
    && (forall i, j :: 0 <= i < j < |ps| ==> ps[i].pos != ps[j].pos)
  }

  /** Setting a new tree and appending its position keeps the list complete and duplicate-free. */
  lemma ListedAdd(trees: map<Vec3, InfernalTree>, ps: seq<PosRef>, t: InfernalTree, r: PosRef)
    requires Listed(trees, ps) && r.pos !in trees
    ensures Listed(trees[r.pos := t], ps + [r])
  {
    var ps' := ps + [r];
    var trees' := trees[r.pos := t];
    forall p | p in trees'
      ensures exists i :: 0 <= i < |ps'| && ps'[i].pos == p
    {
      if p == r.pos {
        assert ps'[|ps|].pos == p;
      } else {
        var i :| 0 <= i < |ps| && ps[i].pos == p;
        assert ps'[i].pos == p;
      }
    }
  }

  /** Where a column would anchor its tree. */
  function Anchor(ceiling: map<Vec2, real>, c: Vec2): Vec3
    requires c in ceiling
  {
    Vec3(c.x, Floor(ceiling[c]), c.y)
  }

  /** The trees planted from the columns of `done`, each with its descriptor. */
  ghost predicate Planted(trees: map<Vec3, InfernalTree>, done: set<Vec2>, region: Box, ceilingArea: Area,
                          ceiling: map<Vec2, real>, surface: map<Vec2, real>, spawnNoise: Noise2, heightNoise: Noise2)
  {
    && (forall p :: p in trees <==> Column(p) in done && TreeSite(region, ceilingArea, ceiling, surface, spawnNoise, p))
    && (forall p :: p in trees ==> trees[p] == TreeFor(heightNoise, Column(p)))
  }

  /** Visiting one more column plants its tree exactly when its anchor is a tree site. */
  lemma PlantedAdd(trees: map<Vec3, InfernalTree>, done: set<Vec2>, region: Box, ceilingArea: Area,
                   ceiling: map<Vec2, real>, surface: map<Vec2, real>, spawnNoise: Noise2, heightNoise: Noise2, c: Vec2)
    requires Planted(trees, done, region, ceilingArea, ceiling, surface, spawnNoise, heightNoise)
    requires ceilingArea.Contains(c) && c in ceiling && c !in done
    ensures var tp := Anchor(ceiling, c);
      tp !in trees &&
      if TreeSite(region, ceilingArea, ceiling, surface, spawnNoise, tp)
      then Planted(trees[tp := TreeFor(heightNoise, c)], done + {c}, region, ceilingArea, ceiling, surface, spawnNoise, heightNoise)
      else Planted(trees, done + {c}, region, ceilingArea, ceiling, surface, spawnNoise, heightNoise)
  {
  }

  class InfernalTreeProvider {
    const spawnNoise: Noise2
    const heightNoise: Noise2

    constructor (spawn: Noise2, height: Noise2)
      ensures spawnNoise == spawn && heightNoise == height
    {
      spawnNoise := spawn;
      heightNoise := height;
    }

    /** `process`: the facet holds a tree exactly at the tree sites, each with
        its trunk height and canopy profile, and lists each site once, as a
        position object of its own. */
    method Process(target: Box, border: Border, ceiling: Field2<real>, surface: SurfaceFacet) returns (facet: TreeFacet)
      requires ceiling.Valid() && surface.Valid()
      requires Covers(surface.WorldArea(), ceiling.WorldArea())
      ensures fresh(facet) && facet.Valid()
      ensures facet.target == target && facet.border == border.ExtendBy(30, 30, 30)
      ensures forall p :: p in facet.trees <==>
        TreeSite(facet.Region(), ceiling.WorldArea(), ceiling.values, surface.heights, spawnNoise, p)
      ensures forall p :: p in facet.trees ==> facet.trees[p] == TreeFor(heightNoise, Column(p))
      ensures Listed(facet.trees, facet.treesPos)
      ensures forall r :: r in facet.treesPos ==> fresh(r)
    {
      facet := new TreeFacet(target, border.ExtendBy(30, 30, 30));
      var todo := Columns(ceiling.WorldArea());
      ghost var done: set<Vec2> := {};
      while todo != {}
        invariant fresh(facet) && facet.Valid()
        invariant facet.target == target && facet.border == border.ExtendBy(30, 30, 30)
        invariant done + todo == Columns(ceiling.WorldArea()) && done !! todo
        invariant Planted(facet.trees, done, facet.Region(), ceiling.WorldArea(), ceiling.values, surface.heights, spawnNoise, heightNoise)
        invariant Listed(facet.trees, facet.treesPos)
        invariant forall r :: r in facet.treesPos ==> fresh(r)
        decreases |todo|
      {
        var c :| c in todo;
        TakeOne(Columns(ceiling.WorldArea()), done, todo, c);
        ColumnTurn(facet, ceiling, surface, done, c);
        todo := todo - {c};
        done := done + {c};
      }
    }

    /** One turn of the loop of `process`: column `c` is planted. */
    method ColumnTurn(facet: TreeFacet, ceiling: Field2<real>, surface: SurfaceFacet, ghost done: set<Vec2>, c: Vec2)
      requires ceiling.Valid() && surface.Valid() && facet.Valid()
      requires Covers(surface.WorldArea(), ceiling.WorldArea())
      requires ceiling.WorldArea().Contains(c) && c !in done
      requires Planted(facet.trees, done, facet.Region(), ceiling.WorldArea(), ceiling.values, surface.heights, spawnNoise, heightNoise)
      requires Listed(facet.trees, facet.treesPos)
      modifies facet
      ensures facet.Valid() && Listed(facet.trees, facet.treesPos)
      ensures Planted(facet.trees, done + {c}, facet.Region(), ceiling.WorldArea(), ceiling.values, surface.heights, spawnNoise, heightNoise)
      ensures forall r :: r in facet.treesPos ==> r in old(facet.treesPos) || fresh(r)
    {
      PlantedAdd(facet.trees, done, facet.Region(), ceiling.WorldArea(), ceiling.values, surface.heights, spawnNoise, heightNoise, c);
      ghost var added := VisitColumn(facet, ceiling, surface, c);
    }

    /** The loop body for column `c`: when the anchor below the ceiling is a
        tree site, set its tree and append a new position object for it. */
    method VisitColumn(facet: TreeFacet, ceiling: Field2<real>, surface: SurfaceFacet, c: Vec2) returns (ghost added: seq<PosRef>)
      requires ceiling.Valid() && surface.Valid() && facet.Valid()
      requires Covers(surface.WorldArea(), ceiling.WorldArea())
      requires ceiling.WorldArea().Contains(c)
      requires Listed(facet.trees, facet.treesPos)
      requires Anchor(ceiling.values, c) !in facet.trees
      modifies facet
      ensures facet.Valid() && Listed(facet.trees, facet.treesPos)
      ensures var tp := Anchor(ceiling.values, c);
        if TreeSite(facet.Region(), ceiling.WorldArea(), ceiling.values, surface.heights, spawnNoise, tp)
        then facet.trees == old(facet.trees)[tp := TreeFor(heightNoise, c)]
          && |added| == 1 && added[0].pos == tp
        else facet.trees == old(facet.trees) && added == []
      ensures facet.treesPos == old(facet.treesPos) + added
      ensures forall r :: r in added ==> fresh(r)
    {
      added := [];
      var ceilingHeight := Floor(ceiling.values[c]);
      var surfaceHeight := surface.heights[c];
      var treePos := Vec3(c.x, ceilingHeight, c.y);
      if facet.Region().Contains(treePos)
        && (ceilingHeight as real) - surfaceHeight > MinSpawnSpace as real
        && At2(spawnNoise, c) > SpawnThreshold
      {
        var trunkHeight := Trunc(Clamp(At2(heightNoise, c) * MaxTrunkHeight as real, MinTrunkHeight as real, MaxTrunkHeight as real));
        var canopy := GenerateCanopy(trunkHeight);
        var posRef := new PosRef(treePos);
        ListedAdd(facet.trees, facet.treesPos, InfernalTree(trunkHeight, canopy), posRef);
        facet.SetWorld(treePos, InfernalTree(trunkHeight, canopy));
        facet.AddTree(posRef);
        added := [posRef];
      }
    }
  }
}
