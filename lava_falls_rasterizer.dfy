/** `LavaFallsRasterizer`: fills each lava-fall column with lava from 10
    blocks below its floor to 10 blocks above its ceiling (both exclusive).
    Nothing else changes, and no randomness is involved. */
module LavaFallsRasterizer {
  import opened Geometry
  import opened Chunks

  /** `LAVA_WELL_DEPTH`. */
  const LavaWellDepth: int := 10

  /** Whether height `y` of a column is part of its lava fall. */
  predicate InFall(flagged: bool, y: int, surface: real, ceiling: real) {
    flagged && y as real > surface - LavaWellDepth as real && (y as real) < ceiling + LavaWellDepth as real
  }

  /** The block at world position `p` after rasterizing, from the block before. */
  function FallBlock(falls: map<Vec2, bool>, surface: map<Vec2, real>, ceiling: map<Vec2, real>, p: Vec3, before: Block): (b: Block)
    requires Column(p) in falls && Column(p) in surface && Column(p) in ceiling
    ensures InFall(falls[Column(p)], p.y, surface[Column(p)], ceiling[Column(p)]) ==> b == Lava
    ensures !InFall(falls[Column(p)], p.y, surface[Column(p)], ceiling[Column(p)]) ==> b == before
    ensures !falls[Column(p)] ==> b == before
  {
    if InFall(falls[Column(p)], p.y, surface[Column(p)], ceiling[Column(p)]) then Lava else before
  }

  /** Rasterizing a second time changes nothing: a lava position stays lava
      and every other position keeps its block. */
  lemma FallBlockIdempotent(falls: map<Vec2, bool>, surface: map<Vec2, real>, ceiling: map<Vec2, real>, p: Vec3, before: Block)
    requires Column(p) in falls && Column(p) in surface && Column(p) in ceiling
    ensures FallBlock(falls, surface, ceiling, p, FallBlock(falls, surface, ceiling, p, before)) == FallBlock(falls, surface, ceiling, p, before)
  {
  }

  /** The chunk-relative positions whose world positions are in `done` hold their lava-fall blocks. */
  ghost predicate FilledUpTo(blocks: map<Vec3, Block>, before: map<Vec3, Block>, origin: Vec3, falls: map<Vec2, bool>,
                             surface: map<Vec2, real>, ceiling: map<Vec2, real>, done: set<Vec3>)
  {
    && blocks.Keys == before.Keys
    && forall q :: q in blocks ==>
         blocks[q] == if origin.Add(q) in done && Column(origin.Add(q)) in falls
                         && Column(origin.Add(q)) in surface && Column(origin.Add(q)) in ceiling
                      then FallBlock(falls, surface, ceiling, origin.Add(q), before[q]) else before[q]
  }

  /** `generateChunk`: over `chunk.getRegion()`, lava exactly in the fall band
      of flagged columns, every other position unchanged. */
  method GenerateChunk(chunk: Chunk, falls: map<Vec2, bool>, surface: map<Vec2, real>, ceiling: map<Vec2, real>)
    requires chunk.Valid()
    requires forall p :: chunk.Region().Contains(p) ==> Column(p) in falls && Column(p) in surface && Column(p) in ceiling
    modifies chunk
    ensures chunk.Valid()
    ensures forall p :: chunk.Region().Contains(p) ==>
      chunk.At(p) == FallBlock(falls, surface, ceiling, p, old(chunk.At(p)))
  {
    ghost var before := chunk.blocks;
    RelInRegion(chunk);
    var todo := Cells(chunk.Region());
    ghost var done: set<Vec3> := {};
    while todo != {}
      invariant chunk.Valid()
      invariant done + todo == Cells(chunk.Region()) && done !! todo
      invariant FilledUpTo(chunk.blocks, before, chunk.origin, falls, surface, ceiling, done)
      decreases |todo|
    {
      var position :| position in todo;
      TakeOne(Cells(chunk.Region()), done, todo, position);
      VisitPosition(chunk, falls, surface, ceiling, before, done, position);
      todo := todo - {position};
      done := done + {position};
    }
    forall p | chunk.Region().Contains(p)
      ensures chunk.At(p) == FallBlock(falls, surface, ceiling, p, before[chunk.Rel(p)])
    {
      RelOf(chunk, p);
    }
  }

  /** The loop body for world position `position`. */
  method VisitPosition(chunk: Chunk, falls: map<Vec2, bool>, surface: map<Vec2, real>, ceiling: map<Vec2, real>,
                       ghost before: map<Vec3, Block>, ghost done: set<Vec3>, position: Vec3)
    requires chunk.Valid() && chunk.Region().Contains(position) && position !in done
    requires Column(position) in falls && Column(position) in surface && Column(position) in ceiling
    requires FilledUpTo(chunk.blocks, before, chunk.origin, falls, surface, ceiling, done)
    modifies chunk
    ensures chunk.Valid()
    ensures FilledUpTo(chunk.blocks, before, chunk.origin, falls, surface, ceiling, done + {position})
  {
    RelOf(chunk, position);
    var surfaceHeight := surface[Column(position)];
    var ceilingHeight := ceiling[Column(position)];
    if falls[Column(position)]
      && position.y as real > surfaceHeight - LavaWellDepth as real
      && (position.y as real) < ceilingHeight + LavaWellDepth as real
    {
      chunk.SetBlock(position, Lava);
    }
  }
}
