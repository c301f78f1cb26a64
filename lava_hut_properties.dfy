/** What the lava-hut rasterizer's passes leave in a chunk: the blocks a hut
    may place, where its stilt blocks and its lava may go, and the geometry
    its moving vectors give the lava ring. */
module LavaHutProperties {
  import opened Geometry
  import opened Facets
  import opened Chunks
  import opened LavaHutRasterizer

  /** A block a hut places. */
  predicate HutBlock(b: Block) {
    b == BasaltBricksSmall || b == BasaltBricksTriple || b == BasaltCracked || b == BasaltTilesLarge || b == Lava
  }

  /** The first `k` corners of stilt level `y` change only the cells those corners wrap to, and to stilt blocks. */
  lemma {:induction false} CornersChange(blocks: map<Vec3, Block>, chunk: Chunk, pl: Plan, stream: nat -> real, lo: nat, y: int, k: nat)
    requires chunk.Sized() && blocks.Keys == Cells(chunk.RelBox()) && k <= 4
    ensures var r := Corners(blocks, chunk, pl, stream, lo, y, k);
      forall q :: q in r && r[q] != blocks[q] ==>
        StiltBlock(r[q]) && exists j :: 0 <= j < k && q == chunk.Rel(Corner(pl, y, j))
  {
    if k > 0 {
      CornersChange(blocks, chunk, pl, stream, lo, y, k - 1);
      var s := Corners(blocks, chunk, pl, stream, lo, y, k - 1);
      var r := Corners(blocks, chunk, pl, stream, lo, y, k);
      forall q | q in r && r[q] != blocks[q]
        ensures StiltBlock(r[q]) && exists j :: 0 <= j < k && q == chunk.Rel(Corner(pl, y, j))
      {
        if q == chunk.Rel(Corner(pl, y, k - 1)) {
          assert r[q] == CornerBlock(pl, stream, lo, y, k - 1);
        } else {
          assert r[q] == s[q];
          var j :| 0 <= j < k - 1 && q == chunk.Rel(Corner(pl, y, j));
        }
      }
    }
  }

  /** The stilts from the top level down to `y` change only cells that one of
      their corners wraps to, and only to stilt blocks. */
  lemma {:induction false} StiltsChange(blocks: map<Vec3, Block>, chunk: Chunk, pl: Plan, stream: nat -> real, lo: nat, y: int)
    requires chunk.Sized() && blocks.Keys == Cells(chunk.RelBox())
    ensures var r := Stilts(blocks, chunk, pl, stream, lo, y);
      forall q :: q in r && r[q] != blocks[q] ==>
        StiltBlock(r[q]) && exists y', j :: y <= y' <= pl.stiltTop && 0 <= j < 4 && q == chunk.Rel(Corner(pl, y', j))
    decreases pl.stiltTop - y + 1
  {
    if y <= pl.stiltTop {
      StiltsChange(blocks, chunk, pl, stream, lo, y + 1);
      var s := Stilts(blocks, chunk, pl, stream, lo, y + 1);
      CornersChange(s, chunk, pl, stream, lo, y, 4);
      var r := Stilts(blocks, chunk, pl, stream, lo, y);
      assert r == Corners(s, chunk, pl, stream, lo, y, 4);
      forall q | q in r && r[q] != blocks[q]
        ensures StiltBlock(r[q]) && exists y', j :: y <= y' <= pl.stiltTop && 0 <= j < 4 && q == chunk.Rel(Corner(pl, y', j))
      {
        if r[q] != s[q] {
          var j :| 0 <= j < 4 && q == chunk.Rel(Corner(pl, y, j));
        } else {
          var y', j :| y + 1 <= y' <= pl.stiltTop && 0 <= j < 4 && q == chunk.Rel(Corner(pl, y', j));
        }
      }
    }
  }

  /** The cell of corner `k` holds that corner's block once the corners up to
      `n` are written, unless a later one of them wraps to the same cell. */
  lemma {:induction false} CornerHolds(blocks: map<Vec3, Block>, chunk: Chunk, pl: Plan, stream: nat -> real, lo: nat,
                                       y: int, k: nat, n: nat)
    requires chunk.Sized() && blocks.Keys == Cells(chunk.RelBox()) && k < n <= 4
    requires forall j :: k < j < n ==> chunk.Rel(Corner(pl, y, j)) != chunk.Rel(Corner(pl, y, k))
    ensures Corners(blocks, chunk, pl, stream, lo, y, n)[chunk.Rel(Corner(pl, y, k))] == CornerBlock(pl, stream, lo, y, k)
  {
    if n - 1 > k {
      assert chunk.Rel(Corner(pl, y, n - 1)) != chunk.Rel(Corner(pl, y, k));
      CornerHolds(blocks, chunk, pl, stream, lo, y, k, n - 1);
    }
  }

  /** A stilt level whose four corners lie in the chunk, at a positive offset
      from the centre, gets each corner's own block: small bricks from the
      hut's floor up, below it cracked or large tiles as the corner's draw decides. */
  lemma LevelCorners(blocks: map<Vec3, Block>, chunk: Chunk, pl: Plan, stream: nat -> real, lo: nat, y: int)
    requires chunk.Shaped() && blocks.Keys == Cells(chunk.RelBox()) && pl.toInner > 0
    requires forall k :: 0 <= k < 4 ==> chunk.Region().Contains(Corner(pl, y, k))
    ensures forall k :: 0 <= k < 4 ==>
      Level(blocks, chunk, pl, stream, lo, y)[chunk.Rel(Corner(pl, y, k))] == CornerBlock(pl, stream, lo, y, k)
  {
    forall k | 0 <= k < 4
      ensures Level(blocks, chunk, pl, stream, lo, y)[chunk.Rel(Corner(pl, y, k))] == CornerBlock(pl, stream, lo, y, k)
    {
      forall j | k < j < 4
        ensures chunk.Rel(Corner(pl, y, j)) != chunk.Rel(Corner(pl, y, k))
      {
        RelInjective(chunk, Corner(pl, y, j), Corner(pl, y, k));
      }
      CornerHolds(blocks, chunk, pl, stream, lo, y, k, 4);
    }
  }

  /** From `before` to `after` cells change only to hut blocks, and new lava only at or above the lava level. */
  ghost predicate HutChanges(before: map<Vec3, Block>, after: map<Vec3, Block>, chunk: Chunk, lavaLevel: int) {
    forall q :: q in after && q in before && after[q] != before[q] ==>
      HutBlock(after[q]) && (after[q] == Lava ==> lavaLevel <= chunk.origin.Add(q).y)
  }

  /** Two stretches of hut changes make one. */
  lemma HutChangesTrans(b0: map<Vec3, Block>, b1: map<Vec3, Block>, b2: map<Vec3, Block>, chunk: Chunk, lavaLevel: int)
    requires b0.Keys == b1.Keys == b2.Keys
    requires HutChanges(b0, b1, chunk, lavaLevel) && HutChanges(b1, b2, chunk, lavaLevel)
    ensures HutChanges(b0, b2, chunk, lavaLevel)
  {
    forall q | q in b2 && q in b0 && b2[q] != b0[q]
      ensures HutBlock(b2[q]) && (b2[q] == Lava ==> lavaLevel <= chunk.origin.Add(q).y)
    {
      if b2[q] == b1[q] {
        assert b1[q] != b0[q];
      }
    }
  }

  /** The stilts are hut changes, and bring no lava. */
  lemma StiltsHutChanges(blocks: map<Vec3, Block>, chunk: Chunk, pl: Plan, stream: nat -> real, lo: nat, y: int, lavaLevel: int)
    requires chunk.Sized() && blocks.Keys == Cells(chunk.RelBox())
    ensures HutChanges(blocks, Stilts(blocks, chunk, pl, stream, lo, y), chunk, lavaLevel)
  {
    StiltsChange(blocks, chunk, pl, stream, lo, y);
  }

  /** A hut changes cells only to hut blocks, and new lava only at or above the lava level. */
  lemma HutResultChange(blocks: map<Vec3, Block>, chunk: Chunk, pl: Plan, lavaLevel: int, stream: nat -> real, dr: HutDraws)
    requires chunk.Sized() && blocks.Keys == Cells(chunk.RelBox())
    ensures HutChanges(blocks, HutResult(blocks, chunk, pl, lavaLevel, stream, dr), chunk, lavaLevel)
  {
    var b1 := PlatformPhase(blocks, chunk, pl, stream, dr.platform);
    var b2 := PickPhase(b1, chunk, pl.outer, pl.inner, WallBlockProb, stream, dr.wall);
    var b3 := LavaPhase(b2, chunk, pl, lavaLevel, stream, dr.lava);
    var b4 := PickPhase(b3, chunk, pl.topLayer, pl.inner, WallTopBlockProb, stream, dr.top);
    var r := Stilts(b4, chunk, pl, stream, dr.stiltsFrom, StiltBottom(chunk.Region(), pl, lavaLevel));
    StiltsHutChanges(b4, chunk, pl, stream, dr.stiltsFrom, StiltBottom(chunk.Region(), pl, lavaLevel), lavaLevel);
    HutChangesTrans(blocks, b1, b2, chunk, lavaLevel);
    HutChangesTrans(blocks, b2, b3, chunk, lavaLevel);
    HutChangesTrans(blocks, b3, b4, chunk, lavaLevel);
    HutChangesTrans(blocks, b4, r, chunk, lavaLevel);
  }

  /** A hut of the facet changes cells only to hut blocks, and new lava only at or above the lava level. */
  lemma HutAtChange(blocks: map<Vec3, Block>, chunk: Chunk, position: Vec3, hut: LavaHut, lavaLevel: int,
                    stream: nat -> real, dr: HutDraws)
    requires chunk.Sized() && blocks.Keys == Cells(chunk.RelBox())
    ensures HutChanges(blocks, HutAt(blocks, chunk, position, hut, lavaLevel, stream, dr), chunk, lavaLevel)
  {
    if Builds(chunk.Region(), position, hut) {
      HutResultChange(blocks, chunk, PlanOf(position, hut), lavaLevel, stream, dr);
    }
  }

  /** All the huts of a chunk change cells only to hut blocks, and new lava only at or above the lava level. */
  lemma {:induction false} HutsChange(blocks: map<Vec3, Block>, chunk: Chunk, visits: seq<Visit>, lavaLevel: int, stream: nat -> real)
    requires chunk.Sized() && blocks.Keys == Cells(chunk.RelBox())
    ensures HutChanges(blocks, Huts(blocks, chunk, visits, lavaLevel, stream), chunk, lavaLevel)
    decreases |visits|
  {
    if visits != [] {
      var v := visits[|visits| - 1];
      var s := Huts(blocks, chunk, visits[..|visits| - 1], lavaLevel, stream);
      HutsChange(blocks, chunk, visits[..|visits| - 1], lavaLevel, stream);
      HutAtChange(s, chunk, v.position, v.hut, lavaLevel, stream, v.dr);
      HutChangesTrans(blocks, s, Huts(blocks, chunk, visits, lavaLevel, stream), chunk, lavaLevel);
    }
  }

  /** The source raises the lava ring's inner corner a second time before laying
      out the ring's hole, so for every hut height but 1 the hole lies on
      another level than the ring and leaves out none of its cells. */
  lemma RingHasNoHole(position: Vec3, hut: LavaHut, p: Vec3)
    requires hut.height != 1
    ensures var pl := PlanOf(position, hut);
      pl.topOuter.Contains(p) ==> !pl.topInner.Contains(p)
  {
  }

  /** Hence, for every hut height but 1, lava falls from a ring cell exactly
      when the cell is in the chunk and its draw is at most 0.15. */
  lemma LavaFromWholeRing(position: Vec3, hut: LavaHut, region: Box, stream: nat -> real, m: map<Vec3, nat>, t: Vec3)
    requires hut.height != 1
    ensures var pl := PlanOf(position, hut);
      LavaSource(pl, region, stream, m, t) <==>
        pl.topOuter.Contains(t) && region.Contains(t) && Val(stream, m, t) <= LavaSpawnProb
  {
    RingHasNoHole(position, hut, t);
  }
}
