/** `InfernoWorldRasterizer`: classifies every position of a chunk by its
    column's surface and ceiling heights and the lava level. Above the
    ceiling, up to the 20000-block border, lies solid stone; between floor
    and ceiling lies lava up to the lava level and air above it; at or below
    the floor lies solid stone. Anything higher is left as it was. */
module InfernoWorldRasterizer {
  import opened Geometry
  import opened Options
  import opened Chunks

  /** `INFERNO_BORDER`: the thickness of the solid shell above the ceiling. */
  const InfernoBorder: int := 20000

  /** The block written at height `y` of a column, or none when the position is left alone. */
  function TerrainBlock(y: int, surface: real, ceiling: real, lavaLevel: int): (b: Option<Block>)
    ensures b == Some(BloodiedStone) <==> (ceiling < y as real < ceiling + InfernoBorder as real) || y as real <= surface
    ensures b == Some(Lava) <==> surface < y as real <= ceiling && y <= lavaLevel
    ensures b == Some(Air) <==> surface < y as real <= ceiling && y > lavaLevel
    ensures b == None <==> y as real >= ceiling + InfernoBorder as real && y as real > surface
  {
    var h := y as real;
    if h > ceiling && h < ceiling + InfernoBorder as real then Some(BloodiedStone)
    else if h <= ceiling && h > surface then
      if y <= lavaLevel then Some(Lava) else Some(Air)
    else if h <= surface then Some(BloodiedStone)
    else None
  }

  /** Lava lies only above the floor and no higher than both the ceiling and the lava level. */
  lemma LavaBand(y: int, surface: real, ceiling: real, lavaLevel: int)
    requires TerrainBlock(y, surface, ceiling, lavaLevel) == Some(Lava)
    ensures surface < y as real <= Min(ceiling, lavaLevel as real)
  {
  }

  /** A column whose floor reaches its ceiling (raised by elevation) is a wall:
      it holds no air and no lava at any height. */
  lemma WallColumn(y: int, surface: real, ceiling: real, lavaLevel: int)
    requires surface >= ceiling
    ensures TerrainBlock(y, surface, ceiling, lavaLevel) != Some(Air)
    ensures TerrainBlock(y, surface, ceiling, lavaLevel) != Some(Lava)
  {
  }

  /** A block after an optional write. */
  function Apply(before: Block, b: Option<Block>): Block {
    if b.Some? then b.value else before
  }

  /** The rule at world position `p`. */
  function TerrainAt(surface: map<Vec2, real>, ceiling: map<Vec2, real>, lavaLevel: int, p: Vec3): Option<Block>
    requires Column(p) in surface && Column(p) in ceiling
  {
    TerrainBlock(p.y, surface[Column(p)], ceiling[Column(p)], lavaLevel)
  }

  /** The chunk-relative positions whose world positions are in `done` hold the rasterized blocks. */
  ghost predicate RasterizedUpTo(blocks: map<Vec3, Block>, before: map<Vec3, Block>, origin: Vec3,
                                 surface: map<Vec2, real>, ceiling: map<Vec2, real>, lavaLevel: int, done: set<Vec3>)
  {
    && blocks.Keys == before.Keys
    && forall q :: q in blocks ==>
         blocks[q] == if origin.Add(q) in done && Column(origin.Add(q)) in surface && Column(origin.Add(q)) in ceiling
                      then Apply(before[q], TerrainAt(surface, ceiling, lavaLevel, origin.Add(q))) else before[q]
  }

  /** `generateChunk`: every chunk position gets the block of its height band;
      positions at least `INFERNO_BORDER` above the ceiling (and above the
      floor) keep their block. */
  method GenerateChunk(chunk: Chunk, surface: map<Vec2, real>, ceiling: map<Vec2, real>, lavaLevel: int)
    requires chunk.Valid()
    requires forall p :: chunk.Region().Contains(p) ==> Column(p) in surface && Column(p) in ceiling
    modifies chunk
    ensures chunk.Valid()
    ensures forall p :: chunk.Region().Contains(p) ==>
      chunk.At(p) == Apply(old(chunk.At(p)), TerrainAt(surface, ceiling, lavaLevel, p))
  {
    ghost var before := chunk.blocks;
    RelInRegion(chunk);
    var todo := Cells(chunk.Region());
    ghost var done: set<Vec3> := {};
    while todo != {}
      invariant chunk.Valid()
      invariant done + todo == Cells(chunk.Region()) && done !! todo
      invariant RasterizedUpTo(chunk.blocks, before, chunk.origin, surface, ceiling, lavaLevel, done)
      decreases |todo|
    {
      var position :| position in todo;
      TakeOne(Cells(chunk.Region()), done, todo, position);
      VisitPosition(chunk, surface, ceiling, lavaLevel, before, done, position);
      todo := todo - {position};
      done := done + {position};
    }
    forall p | chunk.Region().Contains(p)
      ensures chunk.At(p) == Apply(before[chunk.Rel(p)], TerrainAt(surface, ceiling, lavaLevel, p))
    {
      RelOf(chunk, p);
    }
  }

  /** The loop body for world position `position`. */
  method VisitPosition(chunk: Chunk, surface: map<Vec2, real>, ceiling: map<Vec2, real>, lavaLevel: int,
                       ghost before: map<Vec3, Block>, ghost done: set<Vec3>, position: Vec3)
    requires chunk.Valid() && chunk.Region().Contains(position) && position !in done
    requires Column(position) in surface && Column(position) in ceiling
    requires RasterizedUpTo(chunk.blocks, before, chunk.origin, surface, ceiling, lavaLevel, done)
    modifies chunk
    ensures chunk.Valid()
    ensures RasterizedUpTo(chunk.blocks, before, chunk.origin, surface, ceiling, lavaLevel, done + {position})
  {
    RelOf(chunk, position);
    var surfaceHeight := surface[Column(position)];
    var ceilingHeight := ceiling[Column(position)];
    var y := position.y as real;
    if y > ceilingHeight && y < ceilingHeight + InfernoBorder as real {
      chunk.SetBlock(position, BloodiedStone);
    } else if y <= ceilingHeight && y > surfaceHeight {
      if position.y <= lavaLevel {
        chunk.SetBlock(position, Lava);
      } else {
        chunk.SetBlock(position, Air);
      }
    } else if y <= surfaceHeight {
      chunk.SetBlock(position, BloodiedStone);
    }
  }
}
