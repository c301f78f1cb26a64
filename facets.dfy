/** The facets the Inferno providers produce: dense fields over a facet's
    world region (target region grown by its border), the single lava level,
    and sparse position-to-structure maps. Every facet keeps the target region
    and border it was created with; only its values change. */
module Facets {
  import opened Geometry

  /** A dense field with one value per column of the world area
      (`BaseFieldFacet2D`, `BaseBooleanFieldFacet2D`). */
  class Field2<T> {
    const target: Box
    const border: Border
    var values: map<Vec2, T>

    /** `getWorldArea()`. */
    function WorldArea(): Area { Flat(WorldRegion(target, border)) }

    ghost predicate Valid()
      reads this
    {
      values.Keys == Columns(WorldArea())
    }

    /** A fresh facet; every column holds `init` (0 or false in the engine). */
    constructor (target: Box, border: Border, init: T)
      ensures this.target == target && this.border == border
      ensures Valid()
      ensures forall c :: c in values ==> values[c] == init
    {
      this.target := target;
      this.border := border;
      values := map c | c in Columns(Flat(WorldRegion(target, border))) :: init;
    }

    /** `setWorld(c, v)`. */
    method SetWorld(c: Vec2, v: T)
      requires Valid() && WorldArea().Contains(c)
      modifies this
      ensures Valid()
      ensures values == old(values)[c := v]
    {
      values := values[c := v];
    }
  }

  /** A dense field with one value per position of the world region
      (`BaseFieldFacet3D`, `BaseBooleanFieldFacet3D`). */
  class Field3<T> {
    const target: Box
    const border: Border
    var values: map<Vec3, T>

    /** `getWorldRegion()`. */
    function Region(): Box { WorldRegion(target, border) }

    ghost predicate Valid()
      reads this
    {
      values.Keys == Cells(Region())
    }

    constructor (target: Box, border: Border, init: T)
      ensures this.target == target && this.border == border
      ensures Valid()
      ensures forall p :: p in values ==> values[p] == init
    {
      this.target := target;
      this.border := border;
      values := map p | p in Cells(WorldRegion(target, border)) :: init;
    }

    /** `setWorld(p, v)`. */
    method SetWorld(p: Vec3, v: T)
      requires Valid() && Region().Contains(p)
      modifies this
      ensures Valid()
      ensures values == old(values)[p := v]
    {
      values := values[p := v];
    }
  }

  /** `InfernoSurfaceHeightFacet`: a height per column plus the base surface height. */
  class SurfaceFacet {
    const target: Box
    const border: Border
    var baseSurfaceHeight: int
    var heights: map<Vec2, real>

    function WorldArea(): Area { Flat(WorldRegion(target, border)) }

    ghost predicate Valid()
      reads this
    {
      heights.Keys == Columns(WorldArea())
    }

    constructor (target: Box, border: Border)
      ensures this.target == target && this.border == border
      ensures Valid() && baseSurfaceHeight == 0
      ensures forall c :: c in heights ==> heights[c] == 0.0
    {
      this.target := target;
      this.border := border;
      baseSurfaceHeight := 0;
      heights := map c | c in Columns(Flat(WorldRegion(target, border))) :: 0.0;
    }

    method SetBaseSurfaceHeight(h: int)
      modifies this
      ensures baseSurfaceHeight == h && heights == old(heights)
    {
      baseSurfaceHeight := h;
    }

    method SetWorld(c: Vec2, h: real)
      requires Valid() && WorldArea().Contains(c)
      modifies this
      ensures Valid()
      ensures heights == old(heights)[c := h] && baseSurfaceHeight == old(baseSurfaceHeight)
    {
      heights := heights[c := h];
    }
  }

  /** `LavaLevelFacet`: one lava level for the whole facet. */
  class LavaLevelFacet {
    const target: Box
    const border: Border
    var lavaLevel: int

    constructor (target: Box, border: Border)
      ensures this.target == target && this.border == border && lavaLevel == 0
    {
      this.target := target;
      this.border := border;
      lavaLevel := 0;
    }

    method SetLavaLevel(level: int)
      modifies this
      ensures lavaLevel == level
    {
      lavaLevel := level;
    }
  }

  /** A sparse map from positions of the world region to structures (`SparseObjectFacet3D`). */
  class Sparse3<T> {
    const target: Box
    const border: Border
    var entries: map<Vec3, T>

    function Region(): Box { WorldRegion(target, border) }

    ghost predicate Valid()
      reads this
    {
      forall p :: p in entries ==> Region().Contains(p)
    }

    constructor (target: Box, border: Border)
      ensures this.target == target && this.border == border
      ensures Valid() && entries == map[]
    {
      this.target := target;
      this.border := border;
      entries := map[];
    }

    /** `setWorld(p, v)`. */
    method SetWorld(p: Vec3, v: T)
      requires Valid() && Region().Contains(p)
      modifies this
      ensures Valid()
      ensures entries == old(entries)[p := v]
    {
      entries := entries[p := v];
    }
  }

  /** The four horizontal directions of `LavaHutProvider.HORIZONTAL_DIRECTIONS`, in list order. */
  datatype Direction = Forward | Backward | Left | Right

  /** The engine's unit vector of each horizontal direction (`Direction.asVector3i`). */
  function DirVector(d: Direction): (v: Vec3)
    ensures v.y == 0
    ensures (v.x == 0 && (v.z == 1 || v.z == -1)) || (v.z == 0 && (v.x == 1 || v.x == -1))
  {
    match d
    case Forward => Vec3(0, 0, 1)
    case Backward => Vec3(0, 0, -1)
    case Left => Vec3(1, 0, 0)
    case Right => Vec3(-1, 0, 0)
  }

  /** `HORIZONTAL_DIRECTIONS.get(i)`. */
  function DirectionAt(i: int): (d: Direction)
    requires 0 <= i < 4
    ensures i == 0 <==> d == Forward
    ensures i == 1 <==> d == Backward
    ensures i == 2 <==> d == Left
    ensures i == 3 <==> d == Right
  {
    [Forward, Backward, Left, Right][i]
  }

  /** A lava hut descriptor (`LavaHut`). */
  datatype LavaHut = LavaHut(length: int, height: int, direction: Direction)

  /** The height every `LavaHut` starts with; the provider never changes it. */
  const DefaultHutHeight: int := 4
}
