/** `CaveRasterizer`: replaces every block of a chunk that the cave facet
    flags with the cave block; every other block is kept. The cave block is
    air unless the rasterizer was given a block URI. */
module InfernoCaveRasterizer {
  import opened Geometry
  import opened Options
  import opened Facets
  import opened Chunks

  /** `caveBlock`: air, or the block named by the URI when one was given. */
  function CaveBlock(blockUri: Option<string>): (b: Block)
    ensures blockUri == None <==> b == Air
    ensures blockUri.Some? ==> b == Named(blockUri.value)
  {
    match blockUri
    case None => Air
    case Some(uri) => Named(uri)
  }

  /** The chunk's blocks after rasterizing: each chunk-relative position whose
      world position (`origin + r`) the cave facet flags holds `caveBlock`. */
  function Carve(blocks: map<Vec3, Block>, cave: map<Vec3, bool>, origin: Vec3, caveBlock: Block): (r: map<Vec3, Block>)
    ensures r.Keys == blocks.Keys
    ensures forall q :: q in r && origin.Add(q) in cave && cave[origin.Add(q)] ==> r[q] == caveBlock
    ensures forall q :: q in r && !(origin.Add(q) in cave && cave[origin.Add(q)]) ==> r[q] == blocks[q]
  {
    map q | q in blocks :: if origin.Add(q) in cave && cave[origin.Add(q)] then caveBlock else blocks[q]
  }

  /** Rasterizing twice gives the same chunk as rasterizing once. */
  lemma CarveIdempotent(blocks: map<Vec3, Block>, cave: map<Vec3, bool>, origin: Vec3, caveBlock: Block)
    ensures Carve(Carve(blocks, cave, origin, caveBlock), cave, origin, caveBlock) == Carve(blocks, cave, origin, caveBlock)
  {
  }

  /** `blocks` is `before` with the flagged positions of `done` replaced. */
  ghost predicate CarvedUpTo(blocks: map<Vec3, Block>, before: map<Vec3, Block>, cave: map<Vec3, bool>,
                             origin: Vec3, caveBlock: Block, done: set<Vec3>)
  {
    && blocks.Keys == before.Keys
    && forall q :: q in blocks ==>
         blocks[q] == (if q in done && origin.Add(q) in cave && cave[origin.Add(q)] then caveBlock else before[q])
  }

  /** The loop of `generateChunk` over `Chunks.CHUNK_REGION`, given the cave
      facet's values: `caveFacet.get(r)` is the value at world position
      `origin + r`, since the facet's target region is the chunk's region. */
  method Rasterize(chunk: Chunk, cave: map<Vec3, bool>, caveBlock: Block)
    requires chunk.Valid()
    requires forall r :: r in chunk.blocks ==> chunk.origin.Add(r) in cave
    modifies chunk
    ensures chunk.Valid()
    ensures chunk.blocks == Carve(old(chunk.blocks), cave, chunk.origin, caveBlock)
  {
    ghost var before := chunk.blocks;
    var rel := chunk.RelBox();  // Chunks.CHUNK_REGION
    var todo := Cells(rel);
    ghost var done: set<Vec3> := {};
    while todo != {}
      invariant chunk.Valid()
      invariant done + todo == Cells(rel) && done !! todo
      invariant before.Keys == Cells(rel)
      invariant CarvedUpTo(chunk.blocks, before, cave, chunk.origin, caveBlock, done)
      decreases |todo|
    {
      var position :| position in todo;
      TakeOne(Cells(rel), done, todo, position);
      VisitPosition(chunk, cave, caveBlock, before, done, position);
      todo := todo - {position};
      done := done + {position};
    }
    CarvedAll(chunk.blocks, before, cave, chunk.origin, caveBlock, done);
  }

  /** Once every position of the chunk is done, the blocks are the carved ones. */
  lemma CarvedAll(blocks: map<Vec3, Block>, before: map<Vec3, Block>, cave: map<Vec3, bool>,
                  origin: Vec3, caveBlock: Block, done: set<Vec3>)
    requires CarvedUpTo(blocks, before, cave, origin, caveBlock, done) && before.Keys <= done
    ensures blocks == Carve(before, cave, origin, caveBlock)
  {
  }

  /** After rasterizing, every flagged world position of the chunk reads as the cave block. */
  lemma FlaggedReadsCaveBlock(chunk: Chunk, before: map<Vec3, Block>, cave: map<Vec3, bool>, caveBlock: Block, p: Vec3)
    requires chunk.Valid() && chunk.blocks == Carve(before, cave, chunk.origin, caveBlock)
    requires chunk.Region().Contains(p) && p in cave && cave[p]
    ensures chunk.At(p) == caveBlock
  {
    RelInRegion(chunk);
    assert chunk.origin.Add(chunk.Rel(p)) == p;
  }

  /** The loop body for chunk-relative position `position`. */
  method VisitPosition(chunk: Chunk, cave: map<Vec3, bool>, caveBlock: Block, ghost before: map<Vec3, Block>,
                       ghost done: set<Vec3>, position: Vec3)
    requires chunk.Valid()
    requires forall r :: r in chunk.blocks ==> chunk.origin.Add(r) in cave
    requires chunk.RelBox().Contains(position) && position !in done
    requires CarvedUpTo(chunk.blocks, before, cave, chunk.origin, caveBlock, done)
    modifies chunk
    ensures chunk.Valid()
    ensures CarvedUpTo(chunk.blocks, before, cave, chunk.origin, caveBlock, done + {position})
  {
    var world := chunk.origin.Add(position);
    if cave[world] {
      chunk.SetRelative(position, caveBlock);
    }
  }

  class CaveRasterizer {
    /** The block URI, or none (air). */
    const blockUri: Option<string>

    /** `CaveRasterizer()` and `CaveRasterizer(blockUri)`. */
    constructor (blockUri: Option<string>)
      ensures this.blockUri == blockUri
    {
      this.blockUri := blockUri;
    }

    /** `generateChunk`: the chunk with the cave block at every flagged position. */
    method GenerateChunk(chunk: Chunk, cave: Field3<bool>)
      requires chunk.Valid() && cave.Valid() && cave.target == chunk.Region()
      modifies chunk
      ensures chunk.Valid()
      ensures chunk.blocks == Carve(old(chunk.blocks), cave.values, chunk.origin, CaveBlock(blockUri))
    {
      var caveBlock := Air;
      if blockUri.Some? {
        caveBlock := Named(blockUri.value);
      }
      RelInRegion(chunk);
      Rasterize(chunk, cave.values, caveBlock);
    }
  }
}

/** The same rasterizer under the engine's older API (package `org.terasology.caves`). */
module LegacyCaveRasterizer {
  import opened Options
  import opened Facets
  import opened Chunks
  import InfernoCaveRasterizer

  class CaveRasterizer {
    const blockUri: Option<string>

    constructor (blockUri: Option<string>)
      ensures this.blockUri == blockUri
    {
      this.blockUri := blockUri;
    }

    /** `generateChunk` for a `CoreChunk`: the same replacement. */
    method GenerateChunk(chunk: Chunk, cave: Field3<bool>)
      requires chunk.Valid() && cave.Valid() && cave.target == chunk.Region()
      modifies chunk
      ensures chunk.Valid()
      ensures chunk.blocks == InfernoCaveRasterizer.Carve(old(chunk.blocks), cave.values, chunk.origin, InfernoCaveRasterizer.CaveBlock(blockUri))
    {
      var caveBlock := Air;
      if blockUri.Some? {
        caveBlock := Named(blockUri.value);
      }
      RelInRegion(chunk);
      InfernoCaveRasterizer.Rasterize(chunk, cave.values, caveBlock);
    }
  }
}
