/** `InfernalTreeRasterizer`: draws every tree of the tree facet into the
    chunk, hanging down from its anchor. Canopy layer `k` (counting down from
    the anchor) with radius `b >= 0` is the (2b+1) x (2b+1) square of fire
    leaves `k` blocks below the anchor; the trunk is the column of pine trunk
    blocks from the anchor down, `trunkHeight` blocks long, drawn after the
    canopy. Only positions inside the chunk are written; a tree anchored
    outside the chunk still draws the part of it that reaches in. */
module InfernalTreeRasterizer {
  import opened Geometry
  import opened Chunks
  import opened TreeFacets
  import InfernalTreeProvider

  /** `p` is a cell of canopy layer `k` of the tree `t` anchored at `a`. */
  predicate InLayer(a: Vec3, t: InfernalTree, k: int, p: Vec3) {
    && 0 <= k < |t.canopyLayers| && t.canopyLayers[k] >= 0
    && p.y == a.y - k
    && -t.canopyLayers[k] <= p.x - a.x <= t.canopyLayers[k] && -t.canopyLayers[k] <= p.z - a.z <= t.canopyLayers[k]
  }

  /** `p` is in one of the first `n` canopy layers. */
  predicate InCanopyBelow(a: Vec3, t: InfernalTree, n: int, p: Vec3) {
    0 <= a.y - p.y < n && InLayer(a, t, a.y - p.y, p)
  }

  /** `p` is a leaf position of the tree. */
  predicate InCanopy(a: Vec3, t: InfernalTree, p: Vec3) {
    InCanopyBelow(a, t, |t.canopyLayers|, p)
  }

  /** `p` is one of the first `n` trunk positions below the anchor. */
  predicate InTrunkBelow(a: Vec3, n: int, p: Vec3) {
    p.x == a.x && p.z == a.z && 0 <= a.y - p.y < n
  }

  /** `p` is a trunk position of the tree. */
  predicate InTrunk(a: Vec3, t: InfernalTree, p: Vec3) {
    InTrunkBelow(a, t.trunkHeight, p)
  }

  /** The tree writes `p`. */
  predicate Touches(a: Vec3, t: InfernalTree, p: Vec3) {
    InTrunk(a, t, p) || InCanopy(a, t, p)
  }

  /** The block at `p` after drawing one tree over `before`: the trunk wins over the leaves. */
  function Drawn(a: Vec3, t: InfernalTree, p: Vec3, before: Block): (b: Block)
    ensures !Touches(a, t, p) ==> b == before
    ensures InTrunk(a, t, p) ==> b == PineTrunk
    ensures Touches(a, t, p) && !InTrunk(a, t, p) ==> b == FireLeaf
  {
    if InTrunk(a, t, p) then PineTrunk else if InCanopy(a, t, p) then FireLeaf else before
  }

  /** No tree of `from` writes `p`. */
  ghost predicate Untouched(trees: map<Vec3, InfernalTree>, from: set<Vec3>, p: Vec3) {
    forall a :: a in from && a in trees ==> !Touches(a, trees[a], p)
  }

  /** Every tree of `from` that writes `p` has it in its trunk. */
  ghost predicate OnlyTrunks(trees: map<Vec3, InfernalTree>, from: set<Vec3>, p: Vec3) {
    forall a :: a in from && a in trees && Touches(a, trees[a], p) ==> InTrunk(a, trees[a], p)
  }

  /** No tree of `from` has `p` in its trunk. */
  ghost predicate NoTrunk(trees: map<Vec3, InfernalTree>, from: set<Vec3>, p: Vec3) {
    forall a :: a in from && a in trees ==> !InTrunk(a, trees[a], p)
  }

  /** What the trees of `from` leave at `p`, whatever order they are drawn in:
      the old block when none writes it; a trunk block when every one writing
      it draws its trunk there; a leaf when none does; one of the two otherwise. */
  ghost predicate Outcome(trees: map<Vec3, InfernalTree>, from: set<Vec3>, p: Vec3, before: Block, b: Block) {
    && (Untouched(trees, from, p) ==> b == before)
    && (!Untouched(trees, from, p) && OnlyTrunks(trees, from, p) ==> b == PineTrunk)
    && (!Untouched(trees, from, p) && NoTrunk(trees, from, p) ==> b == FireLeaf)
    && (!Untouched(trees, from, p) ==> b == PineTrunk || b == FireLeaf)
  }

  /** Drawing one more tree over an outcome of `from` gives an outcome of `from + {a}`. */
  lemma OutcomeStep(trees: map<Vec3, InfernalTree>, from: set<Vec3>, a: Vec3, p: Vec3, before: Block, b: Block)
    requires a in trees && a !in from
    requires Outcome(trees, from, p, before, b)
    ensures Outcome(trees, from + {a}, p, before, Drawn(a, trees[a], p, b))
  {
    var t := trees[a];
    if Touches(a, t, p) {
      assert !Untouched(trees, from + {a}, p);
      if !InTrunk(a, t, p) {
        assert !OnlyTrunks(trees, from + {a}, p);
      } else {
        assert !NoTrunk(trees, from + {a}, p);
      }
    } else {
      assert Untouched(trees, from + {a}, p) <==> Untouched(trees, from, p);
      assert OnlyTrunks(trees, from + {a}, p) <==> OnlyTrunks(trees, from, p);
      assert NoTrunk(trees, from + {a}, p) <==> NoTrunk(trees, from, p);
    }
  }

  /** With a single tree the outcome is exactly that tree drawn over the old block. */
  lemma OutcomeOfOne(trees: map<Vec3, InfernalTree>, a: Vec3, p: Vec3, before: Block, b: Block)
    requires a in trees && Outcome(trees, {a}, p, before, b)
    ensures b == Drawn(a, trees[a], p, before)
  {
    if Touches(a, trees[a], p) {
      assert !Untouched(trees, {a}, p);
    }
  }

  /** The chunk cells hold the outcome of the trees of `done`. */
  ghost predicate DrawnUpTo(blocks: map<Vec3, Block>, before: map<Vec3, Block>, origin: Vec3,
                            trees: map<Vec3, InfernalTree>, done: set<Vec3>)
  {
    && blocks.Keys == before.Keys
    && forall q :: q in blocks ==> Outcome(trees, done, origin.Add(q), before[q], blocks[q])
  }

  /** A single tree over the cells: `blocks` is `mid` with `a`'s tree drawn. */
  ghost predicate TreeDrawn(blocks: map<Vec3, Block>, mid: map<Vec3, Block>, origin: Vec3, a: Vec3, t: InfernalTree) {
    && blocks.Keys == mid.Keys
    && forall q :: q in blocks ==> blocks[q] == Drawn(a, t, origin.Add(q), mid[q])
  }

  /** Drawing tree `a` extends the outcome from `done` to `done + {a}`. */
  lemma DrawnStep(blocks: map<Vec3, Block>, mid: map<Vec3, Block>, before: map<Vec3, Block>, origin: Vec3,
                  trees: map<Vec3, InfernalTree>, done: set<Vec3>, a: Vec3)
    requires a in trees && a !in done
    requires DrawnUpTo(mid, before, origin, trees, done)
    requires TreeDrawn(blocks, mid, origin, a, trees[a])
    ensures DrawnUpTo(blocks, before, origin, trees, done + {a})
  {
    forall q | q in blocks
      ensures Outcome(trees, done + {a}, origin.Add(q), before[q], blocks[q])
    {
      OutcomeStep(trees, done, a, origin.Add(q), before[q], mid[q]);
    }
  }

  class InfernalTreeRasterizer {
    /** `generateChunk`: after drawing every tree of the facet (in whatever
        order its map yields them), each chunk position holds the outcome of
        the trees: untouched positions keep their block, and a position only
        trunks reach is a trunk, one only leaves reach is a leaf. */
    method GenerateChunk(chunk: Chunk, trees: map<Vec3, InfernalTree>)
      requires chunk.Valid()
      modifies chunk
      ensures chunk.Valid()
      ensures forall p :: chunk.Region().Contains(p) ==> Outcome(trees, trees.Keys, p, old(chunk.At(p)), chunk.At(p))
    {
      ghost var before := chunk.blocks;
      var todo := trees.Keys;
      ghost var done: set<Vec3> := {};
      while todo != {}
        invariant chunk.Valid()
        invariant done + todo == trees.Keys && done !! todo
        invariant DrawnUpTo(chunk.blocks, before, chunk.origin, trees, done)
        decreases |todo|
      {
        var pos :| pos in todo;
        TakeOne(trees.Keys, done, todo, pos);
        ghost var mid := chunk.blocks;
        DrawTree(chunk, pos, trees[pos]);
        DrawnStep(chunk.blocks, mid, before, chunk.origin, trees, done, pos);
        todo := todo - {pos};
        done := done + {pos};
      }
      forall p | chunk.Region().Contains(p)
        ensures Outcome(trees, trees.Keys, p, before[chunk.Rel(p)], chunk.At(p))
      {
        RelOf(chunk, p);
      }
    }

    /** One iteration of the outer loop: the canopy layers, then the trunk. */
    method DrawTree(chunk: Chunk, pos: Vec3, tree: InfernalTree)
      requires chunk.Valid()
      modifies chunk
      ensures chunk.Valid()
      ensures TreeDrawn(chunk.blocks, old(chunk.blocks), chunk.origin, pos, tree)
    {
      ghost var before := chunk.blocks;
      var canopyLayers := tree.canopyLayers;
      var height := 0;
      while height < |canopyLayers|
        invariant chunk.Valid() && 0 <= height <= |canopyLayers|
        invariant chunk.blocks.Keys == before.Keys
        invariant forall q :: q in chunk.blocks ==>
          chunk.blocks[q] == if InCanopyBelow(pos, tree, height, chunk.origin.Add(q)) then FireLeaf else before[q]
      {
        var blocksFromTrunk := canopyLayers[height];
        if blocksFromTrunk >= 0 {
          ghost var mid := chunk.blocks;
          DrawLayer(chunk, pos, tree, height);
          assert forall q :: q in chunk.blocks ==>
            (InCanopyBelow(pos, tree, height + 1, chunk.origin.Add(q)) <==>
             InCanopyBelow(pos, tree, height, chunk.origin.Add(q)) || InLayer(pos, tree, height, chunk.origin.Add(q)));
        }
        height := height + 1;
      }
      ghost var leaves := chunk.blocks;
      height := 0;
      while height < tree.trunkHeight
        invariant chunk.Valid() && (tree.trunkHeight >= 0 ==> 0 <= height <= tree.trunkHeight)
        invariant tree.trunkHeight < 0 ==> height == 0
        invariant chunk.blocks.Keys == before.Keys
        invariant forall q :: q in chunk.blocks ==>
          chunk.blocks[q] == if InTrunkBelow(pos, height, chunk.origin.Add(q)) then PineTrunk else leaves[q]
      {
        var newPos := Vec3(pos.x, pos.y - height, pos.z);
        DrawTrunkBlock(chunk, pos, height, leaves, newPos);
        height := height + 1;
      }
    }

    /** Trunk block `height`: written when it lies inside the chunk. */
    method DrawTrunkBlock(chunk: Chunk, pos: Vec3, height: int, ghost leaves: map<Vec3, Block>, newPos: Vec3)
      requires chunk.Valid() && height >= 0 && newPos == Vec3(pos.x, pos.y - height, pos.z)
      requires chunk.blocks.Keys == leaves.Keys
      requires forall q :: q in chunk.blocks ==>
        chunk.blocks[q] == if InTrunkBelow(pos, height, chunk.origin.Add(q)) then PineTrunk else leaves[q]
      modifies chunk
      ensures chunk.Valid() && chunk.blocks.Keys == leaves.Keys
      ensures forall q :: q in chunk.blocks ==>
        chunk.blocks[q] == if InTrunkBelow(pos, height + 1, chunk.origin.Add(q)) then PineTrunk else leaves[q]
    {
      if chunk.Region().Contains(newPos) {
        RelOf(chunk, newPos);
        chunk.SetBlock(newPos, PineTrunk);
      } else {
        RelInRegion(chunk);
      }
    }

    /** Canopy layer `height` with radius `b >= 0`: every position of the
        square `(2b+1) x 1 x (2b+1)` that lies inside the chunk becomes a leaf. */
    method DrawLayer(chunk: Chunk, pos: Vec3, tree: InfernalTree, height: int)
      requires chunk.Valid() && 0 <= height < |tree.canopyLayers| && tree.canopyLayers[height] >= 0
      modifies chunk
      ensures chunk.Valid() && chunk.blocks.Keys == old(chunk.blocks).Keys
      ensures forall q :: q in chunk.blocks ==>
        chunk.blocks[q] == if InLayer(pos, tree, height, chunk.origin.Add(q)) then FireLeaf else old(chunk.blocks)[q]
    {
      ghost var before := chunk.blocks;
      var blocksFromTrunk := tree.canopyLayers[height];
      var canopyStart := Vec3(pos.x - blocksFromTrunk, pos.y - height, pos.z - blocksFromTrunk);
      var canopyLayerRegion := Box(canopyStart, Vec3(canopyStart.x + blocksFromTrunk * 2, canopyStart.y, canopyStart.z + blocksFromTrunk * 2));
      var todo := Cells(canopyLayerRegion);
      ghost var done: set<Vec3> := {};
      while todo != {}
        invariant chunk.Valid() && chunk.blocks.Keys == before.Keys
        invariant done + todo == Cells(canopyLayerRegion) && done !! todo
        invariant forall q :: q in chunk.blocks ==>
          chunk.blocks[q] == if chunk.origin.Add(q) in done then FireLeaf else before[q]
        decreases |todo|
      {
        var leafPos :| leafPos in todo;
        TakeOne(Cells(canopyLayerRegion), done, todo, leafPos);
        DrawLeaf(chunk, before, done, leafPos);
        todo := todo - {leafPos};
        done := done + {leafPos};
      }
      assert forall p :: p in Cells(canopyLayerRegion) <==> InLayer(pos, tree, height, p);
    }

    /** One leaf: written when it lies inside the chunk. */
    method DrawLeaf(chunk: Chunk, ghost before: map<Vec3, Block>, ghost done: set<Vec3>, leafPos: Vec3)
      requires chunk.Valid() && chunk.blocks.Keys == before.Keys
      requires forall q :: q in chunk.blocks ==>
        chunk.blocks[q] == if chunk.origin.Add(q) in done then FireLeaf else before[q]
      modifies chunk
      ensures chunk.Valid() && chunk.blocks.Keys == before.Keys
      ensures forall q :: q in chunk.blocks ==>
        chunk.blocks[q] == if chunk.origin.Add(q) in done + {leafPos} then FireLeaf else before[q]
    {
      if chunk.Region().Contains(leafPos) {
        RelOf(chunk, leafPos);
        chunk.SetBlock(leafPos, FireLeaf);
      } else {
        RelInRegion(chunk);
      }
    }
  }

  /** The trees the provider makes hang a trunk of `h` blocks straight down
      from the anchor, have the whole 3 by 3 radius-1 layer just below the
      trunk as leaves, and stay within the square of radius `h - h / 2`
      around the trunk and the `h + 1` layers below the anchor. */
  lemma ProvidedTreeShape(heightNoise: Noise2, c: Vec2, a: Vec3, k: int, p: Vec3)
    requires Column(a) == c
    ensures var t := InfernalTreeProvider.TreeFor(heightNoise, c);
      var h := t.trunkHeight;
      && (0 <= k < h ==> Drawn(a, t, Vec3(a.x, a.y - k, a.z), Air) == PineTrunk)
      && (p.y == a.y - h && -1 <= p.x - a.x <= 1 && -1 <= p.z - a.z <= 1 ==> Drawn(a, t, p, Air) == FireLeaf)
      && (Touches(a, t, p) ==> a.y - h <= p.y <= a.y && -(h - h / 2) <= p.x - a.x <= h - h / 2 && -(h - h / 2) <= p.z - a.z <= h - h / 2)
  {
    var t := InfernalTreeProvider.TreeFor(heightNoise, c);
    var h := t.trunkHeight;
    assert t.canopyLayers == InfernalTreeProvider.CanopyProfile(h);
    if p.y == a.y - h && -1 <= p.x - a.x <= 1 && -1 <= p.z - a.z <= 1 {
      assert t.canopyLayers[h] == 1;
      assert InLayer(a, t, h, p);
    }
    if InCanopy(a, t, p) {
      assert t.canopyLayers[a.y - p.y] <= h - h / 2;
    }
  }
}
