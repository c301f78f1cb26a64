/** Block types the Inferno rasterizers place, and the chunk they write into.

    A chunk stores one block per chunk-relative position. Writes and reads
    by world position go through `Rel`, the engine's `Chunks.toRelative`,
    which masks each coordinate with the chunk size minus one; for the
    power-of-two chunk sizes this is the Euclidean remainder by the size. For
    a position inside the chunk's region `Rel` is the offset from the origin;
    a position outside it lands on the cell it wraps to. */
module Chunks {
  import opened Geometry

  datatype Block =
    | Air
    | Lava                  // CoreAssets:Lava
    | BloodiedStone         // Inferno:BloodiedStone
    | PineTrunk             // CoreAssets:PineTrunk
    | FireLeaf              // Inferno:FireLeaf
    | FlamingFlower         // Inferno:FlamingFlower
    | DevilShroom           // Inferno:DevilShroom
    | DeadBranch            // Inferno:DeadBranch
    | BasaltBricksSmall     // ChiselBlocks:Basalt_bricks-small, the hut's top block
    | BasaltBricksTriple    // ChiselBlocks:Basalt_bricks-triple, the cracked top block
    | BasaltTilesLarge      // ChiselBlocks:Basalt_tiles-large, the lower block
    | BasaltCracked         // ChiselBlocks:Basalt_cracked, the cracked lower block
    | Named(uri: string)    // a block looked up by its URI

  class Chunk {
    /** World position of the chunk's least corner. */
    const origin: Vec3
    /** Chunk dimensions. */
    const size: Vec3
    /** Blocks by chunk-relative position. */
    var blocks: map<Vec3, Block>

    /** Positive dimensions. */
    predicate Sized() {
      size.x > 0 && size.y > 0 && size.z > 0
    }

    /** Positive dimensions and an origin on the chunk grid. */
    predicate Shaped() {
      && Sized()
      && origin.x % size.x == 0 && origin.y % size.y == 0 && origin.z % size.z == 0
    }

    /** `Chunks.CHUNK_REGION`: the chunk-relative positions. */
    function RelBox(): Box {
      Box(Vec3(0, 0, 0), Vec3(size.x - 1, size.y - 1, size.z - 1))
    }

    /** `chunk.getRegion()`: the chunk's positions in world coordinates. */
    function Region(): Box {
      Box(origin, Vec3(origin.x + size.x - 1, origin.y + size.y - 1, origin.z + size.z - 1))
    }

    /** `Chunks.toRelative(p)`. */
    function Rel(p: Vec3): (r: Vec3)
      requires Sized()
      ensures RelBox().Contains(r)
    {
      Vec3(p.x % size.x, p.y % size.y, p.z % size.z)
    }

    ghost predicate Valid()
      reads this
    {
      Shaped() && blocks.Keys == Cells(RelBox())
    }

    /** The block a read at world position `p` sees. */
    function At(p: Vec3): Block
      reads this
      requires Valid()
    {
      blocks[Rel(p)]
    }

    constructor (origin: Vec3, size: Vec3, fill: Block)
      requires size.x > 0 && size.y > 0 && size.z > 0
      requires origin.x % size.x == 0 && origin.y % size.y == 0 && origin.z % size.z == 0
      ensures this.origin == origin && this.size == size && Valid()
      ensures forall r :: r in blocks ==> blocks[r] == fill
    {
      this.origin := origin;
      this.size := size;
      var cells := Cells(Box(Vec3(0, 0, 0), Vec3(size.x - 1, size.y - 1, size.z - 1)));
      blocks := map r | r in cells :: fill;
    }

    /** `chunk.setBlock(Chunks.toRelative(p), b)`. */
    method SetBlock(p: Vec3, b: Block)
      requires Valid()
      modifies this
      ensures Valid()
      ensures blocks == old(blocks)[Rel(p) := b]
    {
      blocks := blocks[Rel(p) := b];
    }

    /** `chunk.setBlock(r, b)` with a chunk-relative position. */
    method SetRelative(r: Vec3, b: Block)
      requires Valid() && RelBox().Contains(r)
      modifies this
      ensures Valid()
      ensures blocks == old(blocks)[r := b]
    {
      blocks := blocks[r := b];
    }

    /** `chunk.getBlock(Chunks.toRelative(p))`. */
    method GetBlock(p: Vec3) returns (b: Block)
      requires Valid()
      ensures b == At(p)
    {
      b := blocks[Rel(p)];
    }
  }

  /** Inside the chunk's region, `Rel` is the offset from the origin; so it is
      one-to-one there and reaches every chunk-relative position. */
  lemma RelInRegion(c: Chunk)
    requires c.Shaped()
    ensures forall p :: c.Region().Contains(p) ==> c.Rel(p) == p.Sub(c.origin)
    ensures forall r :: c.RelBox().Contains(r) ==> c.Region().Contains(c.origin.Add(r)) && c.Rel(c.origin.Add(r)) == r
  {
    forall p | c.Region().Contains(p)
      ensures c.Rel(p) == p.Sub(c.origin)
    {
      ModOffset(c.origin.x, p.x - c.origin.x, c.size.x);
      ModOffset(c.origin.y, p.y - c.origin.y, c.size.y);
      ModOffset(c.origin.z, p.z - c.origin.z, c.size.z);
      assert p == Vec3(c.origin.x + (p.x - c.origin.x), c.origin.y + (p.y - c.origin.y), c.origin.z + (p.z - c.origin.z));
    }
    forall r | c.RelBox().Contains(r)
      ensures c.Region().Contains(c.origin.Add(r)) && c.Rel(c.origin.Add(r)) == r
    {
      ModOffset(c.origin.x, r.x, c.size.x);
      ModOffset(c.origin.y, r.y, c.size.y);
      ModOffset(c.origin.z, r.z, c.size.z);
    }
  }

  /** Inside the region, `Rel(p)` is the one chunk-relative position whose world position is `p`. */
  lemma RelOf(c: Chunk, p: Vec3)
    requires c.Shaped() && c.Region().Contains(p)
    ensures c.Rel(p) == p.Sub(c.origin) && c.origin.Add(c.Rel(p)) == p
    ensures forall q :: c.origin.Add(q) == p ==> q == c.Rel(p)
  {
    RelInRegion(c);
  }

  /** Two positions inside the region share a chunk cell only if they are equal. */
  lemma {:induction false} RelInjective(c: Chunk, p: Vec3, q: Vec3)
    requires c.Shaped() && c.Region().Contains(p) && c.Region().Contains(q)
    ensures c.Rel(p) == c.Rel(q) <==> p == q
  {
    RelInRegion(c);
  }
}
