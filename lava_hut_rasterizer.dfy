/** `LavaHutRasterizer`: stamps each lava hut of the facet whose anchor lies in
    the chunk and whose platform fits in the chunk. The hut is built in five
    passes, each decorated by independent draws of the rasterizer's random
    generator: a platform of small basalt bricks with a one-block strip left
    open at the back; hollow walls of intact or cracked bricks; lava columns
    falling from the top of the hut down to the lava level; a top ring of
    bricks; and four corner stilts reaching down to the lava level.

    The source moves its position vectors in place as it goes: `position` is
    shifted by the facing direction times `length / 2 + 1` before the walls
    are laid out, and shifted up by the hut height before the top ring and
    the stilts; the inner corner is raised twice while the lava ring is laid
    out. `Plan` records the boxes exactly as those moved vectors make them. */
module LavaHutRasterizer {
  import opened Geometry
  import opened Facets
  import opened Chunks
  import opened Randomness

  // The placement probabilities; each is compared with a draw in [0, 1).
  const WallBlockProb: real := 0.85
  const WallTopBlockProb: real := 0.65
  const UpperCrackedBlockProb: real := 0.35
  const LowerCrackedBlockProb: real := 0.1
  const PlatformBlockProb: real := 0.9
  const LavaSpawnProb: real := 0.15

  /** Java's `n / 2`, which rounds toward zero. */
  function Half(n: int): (h: int)
    ensures n >= 0 ==> 0 <= n - 2 * h <= 1
    ensures n < 0 ==> 0 <= 2 * h - n <= 1
  {
    if n >= 0 then n / 2 else -((-n) / 2)
  }

  /** The regions of one hut, as the source's moving vectors lay them out. */
  datatype Plan = Plan(
    platform: Box,   // the anchor grown by `length / 2 + 1` in x and z
    back: Box,       // the strip left open, through the shifted position
    outer: Box,      // the wall box, from the shifted position
    inner: Box,      // the hollow inside the walls
    topOuter: Box,   // the lava ring's outer square, from the raised inner corner
    topInner: Box,   // the lava ring's hole, from the inner corner raised again
    topLayer: Box,   // the top ring's square, around the position raised by the height
    p1: Vec3,        // `position` after its first shift (the walls' centre)
    p2: Vec3,        // `position` after its second shift
    stiltTop: int,   // the height the stilts start from
    toInner: int)    // `length / 2`, the stilts' offset from the centre

  /** The plan of the hut `hut` anchored at `position`. */
  function PlanOf(position: Vec3, hut: LavaHut): (pl: Plan)
    ensures pl.platform == Point(position).Expand(Half(hut.length) + 1, 0, Half(hut.length) + 1)
    ensures pl.p1.y == position.y && pl.p2 == pl.p1.Add(Vec3(0, hut.height, 0))
    ensures pl.stiltTop == pl.p2.y + hut.height - 1 && pl.toInner == Half(hut.length)
    ensures pl.topOuter.min.y == pl.topOuter.max.y
  {
    var dirVector := DirVector(hut.direction);
    var length := hut.length;
    var height := hut.height;
    var toOuterCenter := Half(length) + 1;
    var toInnerCenter := Half(length);
    var platformRegion := Point(position).Expand(toOuterCenter, 0, toOuterCenter);
    var p1 := position.Add(dirVector.Scale(toOuterCenter));
    var backPlatformRegion := Point(p1).Expand(0, 0, toOuterCenter);
    var outerMin := p1.Sub(Vec3(toInnerCenter, 0, toInnerCenter));
    var outerWallRegion := Sized(outerMin, length, height, length);
    var innerMin := outerMin.Add(Vec3(1, 0, 1));
    var innerWallRegion := Sized(innerMin, length - 2, height + 2, length - 2);
    var m1 := innerMin.Add(Vec3(0, height - 1, 0));
    var topOuterWallRegion := Sized(m1, length - 2, 1, length - 2);
    var m2 := m1.Add(Vec3(1, height - 1, 1));
    var topInnerWallRegion := Sized(m2, length - 3, 1, length - 3);
    var p2 := p1.Add(Vec3(0, height, 0));
    var topLayerWallRegion := Point(p2).Expand(toInnerCenter, 0, toInnerCenter);
    Plan(platformRegion, backPlatformRegion, outerWallRegion, innerWallRegion, topOuterWallRegion,
         topInnerWallRegion, topLayerWallRegion, p1, p2, p2.y + height - 1, toInnerCenter)
  }

  /** Every position of `a` is in `b`. */
  ghost predicate Encompassed(a: Box, b: Box) {
    forall p :: a.Contains(p) ==> b.Contains(p)
  }

  /** A non-empty box lies in another exactly when its two corners do. */
  lemma EncompassedByCorners(a: Box, b: Box)
    requires a.min.x <= a.max.x && a.min.y <= a.max.y && a.min.z <= a.max.z
    ensures Encompassed(a, b) <==> b.Contains(a.min) && b.Contains(a.max)
  {
    assert a.Contains(a.min) && a.Contains(a.max);
  }

  /** Whether the hut is built at all: its anchor is in the chunk and its whole platform fits. */
  ghost predicate Builds(region: Box, position: Vec3, hut: LavaHut) {
    region.Contains(position) && Encompassed(PlanOf(position, hut).platform, region)
  }

  // ---------------------------------------------------------------------------
  // Draws. Each pass records, per decision it takes, the index of the draw it
  // used; a decision that took no draw reads as 1, above every probability.

  /** The draw the hut took for decision `k`, or 1 when it took none. */
  function Val<K>(stream: nat -> real, m: map<K, nat>, k: K): real {
    if k in m then stream(m[k]) else 1.0
  }

  /** The draws of one hut, by pass: the platform's per cell, the walls' and
      the top ring's per cell (`false` for whether to place, `true` for which
      block), the lava ring's per ring cell; then the generator positions
      where the hut's draws start, where each later pass starts, and where
      they stop. The stilts take theirs in a fixed order (`StiltDraw`). */
  datatype HutDraws = HutDraws(platform: map<Vec3, nat>, wall: map<(Vec3, bool), nat>, lava: map<Vec3, nat>,
                               top: map<(Vec3, bool), nat>,
                               start: nat, wallsFrom: nat, lavaFrom: nat, topFrom: nat, stiltsFrom: nat, stop: nat)

  /** The draws no hut takes. */
  function NoDraws(lo: nat): HutDraws {
    HutDraws(map[], map[], map[], map[], lo, lo, lo, lo, lo, lo)
  }

  // ---------------------------------------------------------------------------
  // The five passes, cell by cell.

  /** A platform cell: a small brick when it is off the back strip and its draw is at most 0.9. */
  function PlatformCell(pl: Plan, stream: nat -> real, m: map<Vec3, nat>, p: Vec3, b: Block): Block {
    if pl.platform.Contains(p) && !pl.back.Contains(p) && Val(stream, m, p) <= PlatformBlockProb
    then BasaltBricksSmall else b
  }

  /** `placeWithProbability(top cracked, top, 0.35)` for the cell `p`. */
  function UpperPick(stream: nat -> real, m: map<(Vec3, bool), nat>, p: Vec3): Block {
    if Val(stream, m, (p, true)) <= UpperCrackedBlockProb then BasaltBricksTriple else BasaltBricksSmall
  }

  /** A cell of the walls or of the top ring (`box` is the pass's box, `prob`
      its probability): in the box, outside the hollow, and its first draw at
      most `prob`; then `placeWithProbability` picks the block. */
  function PickCell(box: Box, hollow: Box, prob: real, stream: nat -> real, m: map<(Vec3, bool), nat>, p: Vec3, b: Block): Block {
    if box.Contains(p) && !hollow.Contains(p) && Val(stream, m, (p, false)) <= prob
    then UpperPick(stream, m, p) else b
  }

  /** A ring cell from which lava falls: in the chunk, off the ring's hole, and its draw at most 0.15. */
  predicate LavaSource(pl: Plan, region: Box, stream: nat -> real, m: map<Vec3, nat>, t: Vec3) {
    pl.topOuter.Contains(t) && region.Contains(t) && !pl.topInner.Contains(t) && Val(stream, m, t) <= LavaSpawnProb
  }

  /** The ring cell above `p` at the ring's height. */
  function RingAbove(pl: Plan, p: Vec3): Vec3 {
    Vec3(p.x, pl.topOuter.min.y, p.z)
  }

  /** A lava cell: below a lava source, at or above the lava level. */
  function LavaCell(pl: Plan, region: Box, lavaLevel: int, stream: nat -> real, m: map<Vec3, nat>, p: Vec3, b: Block): Block {
    if LavaSource(pl, region, stream, m, RingAbove(pl, p)) && lavaLevel <= p.y <= pl.topOuter.min.y then Lava else b
  }

  /** The passes over the chunk's cells (keyed chunk-relative); the walls and
      the top ring are both pick passes. */
  function PlatformPhase(blocks: map<Vec3, Block>, chunk: Chunk, pl: Plan, stream: nat -> real, m: map<Vec3, nat>): (r: map<Vec3, Block>)
    ensures r.Keys == blocks.Keys
    ensures forall q :: q in r && r[q] != blocks[q] ==>
      r[q] == BasaltBricksSmall && pl.platform.Contains(chunk.origin.Add(q)) && !pl.back.Contains(chunk.origin.Add(q))
  {
    map q | q in blocks :: PlatformCell(pl, stream, m, chunk.origin.Add(q), blocks[q])
  }

  function PickPhase(blocks: map<Vec3, Block>, chunk: Chunk, box: Box, hollow: Box, prob: real,
                     stream: nat -> real, m: map<(Vec3, bool), nat>): (r: map<Vec3, Block>)
    ensures r.Keys == blocks.Keys
    ensures forall q :: q in r && r[q] != blocks[q] ==>
      (r[q] == BasaltBricksSmall || r[q] == BasaltBricksTriple)
      && box.Contains(chunk.origin.Add(q)) && !hollow.Contains(chunk.origin.Add(q))
  {
    map q | q in blocks :: PickCell(box, hollow, prob, stream, m, chunk.origin.Add(q), blocks[q])
  }

  function LavaPhase(blocks: map<Vec3, Block>, chunk: Chunk, pl: Plan, lavaLevel: int, stream: nat -> real, m: map<Vec3, nat>): (r: map<Vec3, Block>)
    ensures r.Keys == blocks.Keys
    ensures forall q :: q in r && r[q] != blocks[q] ==>
      r[q] == Lava && lavaLevel <= chunk.origin.Add(q).y <= pl.topOuter.min.y
      && LavaSource(pl, chunk.Region(), stream, m, RingAbove(pl, chunk.origin.Add(q)))
  {
    map q | q in blocks :: LavaCell(pl, chunk.Region(), lavaLevel, stream, m, chunk.origin.Add(q), blocks[q])
  }

  // ---------------------------------------------------------------------------
  // The stilts. Their corners are written without a containment check, so a
  // corner outside the chunk lands on the cell `Chunks.toRelative` wraps it to.

  /** Corner `k` of the stilts at height `y`, in the source's order. */
  function Corner(pl: Plan, y: int, k: int): Vec3 {
    var d := pl.toInner;
    if k == 0 then Vec3(pl.p1.x + d, y, pl.p1.z + d)
    else if k == 1 then Vec3(pl.p1.x - d, y, pl.p1.z + d)
    else if k == 2 then Vec3(pl.p1.x + d, y, pl.p1.z - d)
    else Vec3(pl.p1.x - d, y, pl.p1.z - d)
  }

  /** A block the stilts place. */
  predicate StiltBlock(b: Block) {
    b == BasaltBricksSmall || b == BasaltCracked || b == BasaltTilesLarge
  }

  /** The level below the stilts' draws start: levels from the hut's floor
      up take no draw, so only those below it and the top level count. */
  function StiltFloor(pl: Plan): int {
    if pl.p2.y <= pl.stiltTop then pl.p2.y else pl.stiltTop + 1
  }

  /** The number of draws the stilts take from the top level down to level `y`: four per level below the floor. */
  function StiltDraws(pl: Plan, y: int): nat {
    if y >= StiltFloor(pl) then 0 else 4 * (StiltFloor(pl) - y)
  }

  /** The draw corner `k` of level `y` takes, the stilts' draws starting at `lo`. */
  function StiltDraw(pl: Plan, lo: nat, y: int, k: nat): nat {
    lo + StiltDraws(pl, y + 1) + k
  }

  /** `placeWithProbability(cracked, tiles, 0.1)` for the draw `r`. */
  function LowerPick(r: real): Block {
    if r <= LowerCrackedBlockProb then BasaltCracked else BasaltTilesLarge
  }

  /** The block of corner `k` at height `y`: a small brick from the hut's
      floor up, below it `placeWithProbability(cracked, tiles, 0.1)` with its own draw. */
  function CornerBlock(pl: Plan, stream: nat -> real, lo: nat, y: int, k: nat): (b: Block)
    ensures StiltBlock(b)
    ensures y >= pl.p2.y ==> b == BasaltBricksSmall
    ensures y < pl.p2.y ==> (b == BasaltCracked <==> stream(StiltDraw(pl, lo, y, k)) <= LowerCrackedBlockProb)
    ensures y < pl.p2.y ==> (b == BasaltTilesLarge <==> stream(StiltDraw(pl, lo, y, k)) > LowerCrackedBlockProb)
  {
    if y >= pl.p2.y then BasaltBricksSmall else LowerPick(stream(StiltDraw(pl, lo, y, k)))
  }

  /** The first `k` corners of stilt level `y`, written in order, a later write winning. */
  function Corners(blocks: map<Vec3, Block>, chunk: Chunk, pl: Plan, stream: nat -> real, lo: nat, y: int, k: nat)
    : (r: map<Vec3, Block>)
    requires chunk.Sized() && blocks.Keys == Cells(chunk.RelBox()) && k <= 4
    ensures r.Keys == blocks.Keys
  {
    if k == 0 then blocks
    else Corners(blocks, chunk, pl, stream, lo, y, k - 1)[chunk.Rel(Corner(pl, y, k - 1)) := CornerBlock(pl, stream, lo, y, k - 1)]
  }

  /** One level of stilts: its four corners. */
  function Level(blocks: map<Vec3, Block>, chunk: Chunk, pl: Plan, stream: nat -> real, lo: nat, y: int): (r: map<Vec3, Block>)
    requires chunk.Sized() && blocks.Keys == Cells(chunk.RelBox())
    ensures r.Keys == blocks.Keys
  {
    Corners(blocks, chunk, pl, stream, lo, y, 4)
  }

  /** The stilt levels from the top down to `y`, top first. */
  function Stilts(blocks: map<Vec3, Block>, chunk: Chunk, pl: Plan, stream: nat -> real, lo: nat, y: int): (r: map<Vec3, Block>)
    requires chunk.Sized() && blocks.Keys == Cells(chunk.RelBox())
    ensures r.Keys == blocks.Keys
    decreases pl.stiltTop - y + 1
  {
    if y > pl.stiltTop then blocks else Level(Stilts(blocks, chunk, pl, stream, lo, y + 1), chunk, pl, stream, lo, y)
  }

  /** The stilts' draws are their own: distinct for distinct corners, and
      within the ones taken down to level `low`. */
  lemma StiltDrawsDistinct(pl: Plan, lo: nat, low: int, y: int, k: nat, y': int, k': nat)
    requires low <= y < StiltFloor(pl) && low <= y' < StiltFloor(pl) && k < 4 && k' < 4
    ensures lo <= StiltDraw(pl, lo, y, k) < lo + StiltDraws(pl, low)
    ensures StiltDraw(pl, lo, y, k) == StiltDraw(pl, lo, y', k') <==> y == y' && k == k'
  {
  }

  /** The lowest stilt level: the loop runs from the top while the centre is in
      the chunk and not below the lava level (not at all when the top is out). */
  function StiltBottom(region: Box, pl: Plan, lavaLevel: int): int {
    if region.Contains(Vec3(pl.p1.x, pl.stiltTop, pl.p1.z)) && pl.stiltTop >= lavaLevel
    then (if region.min.y >= lavaLevel then region.min.y else lavaLevel)
    else pl.stiltTop + 1
  }

  // ---------------------------------------------------------------------------
  // One hut, and the huts of a chunk.

  /** The five passes of a hut, in order, over the chunk's cells. */
  function HutResult(blocks: map<Vec3, Block>, chunk: Chunk, pl: Plan, lavaLevel: int, stream: nat -> real, dr: HutDraws): (r: map<Vec3, Block>)
    requires chunk.Sized() && blocks.Keys == Cells(chunk.RelBox())
    ensures r.Keys == blocks.Keys
  {
    var b1 := PlatformPhase(blocks, chunk, pl, stream, dr.platform);
    var b2 := PickPhase(b1, chunk, pl.outer, pl.inner, WallBlockProb, stream, dr.wall);
    var b3 := LavaPhase(b2, chunk, pl, lavaLevel, stream, dr.lava);
    var b4 := PickPhase(b3, chunk, pl.topLayer, pl.inner, WallTopBlockProb, stream, dr.top);
    Stilts(b4, chunk, pl, stream, dr.stiltsFrom, StiltBottom(chunk.Region(), pl, lavaLevel))
  }

  /** The hut when it is built, nothing otherwise. */
  ghost function HutAt(blocks: map<Vec3, Block>, chunk: Chunk, position: Vec3, hut: LavaHut, lavaLevel: int,
                       stream: nat -> real, dr: HutDraws): (r: map<Vec3, Block>)
    requires chunk.Sized() && blocks.Keys == Cells(chunk.RelBox())
    ensures r.Keys == blocks.Keys
    ensures !Builds(chunk.Region(), position, hut) ==> r == blocks
  {
    if Builds(chunk.Region(), position, hut) then HutResult(blocks, chunk, PlanOf(position, hut), lavaLevel, stream, dr) else blocks
  }

  /** One hut of the facet as the rasterizer met it: its anchor, its shape and the draws it took. */
  datatype Visit = Visit(position: Vec3, hut: LavaHut, dr: HutDraws)

  /** The huts of `visits`, drawn one after another, each with its own draws. */
  ghost function Huts(blocks: map<Vec3, Block>, chunk: Chunk, visits: seq<Visit>, lavaLevel: int, stream: nat -> real)
    : (r: map<Vec3, Block>)
    requires chunk.Sized() && blocks.Keys == Cells(chunk.RelBox())
    ensures r.Keys == blocks.Keys
    decreases |visits|
  {
    if visits == [] then blocks
    else
      var v := visits[|visits| - 1];
      HutAt(Huts(blocks, chunk, visits[..|visits| - 1], lavaLevel, stream), chunk, v.position, v.hut, lavaLevel, stream, v.dr)
  }

  // Which decisions took a draw: exactly the ones the source draws for.

  /** A pick pass over the cells of `done` drew once for every cell of the
      chunk outside the hollow, and a second time where the first draw was at most `prob`. */
  ghost predicate PickKeys(m: map<(Vec3, bool), nat>, region: Box, hollow: Box, prob: real, stream: nat -> real, done: set<Vec3>) {
    forall k :: k in m <==>
      k.0 in done && region.Contains(k.0) && !hollow.Contains(k.0) && (k.1 ==> Val(stream, m, (k.0, false)) <= prob)
  }

  /** The lava pass over the ring cells of `done` drew once for every one in the chunk and off the hole. */
  ghost predicate LavaKeys(m: map<Vec3, nat>, region: Box, pl: Plan, done: set<Vec3>) {
    forall t :: t in m <==> t in done && region.Contains(t) && !pl.topInner.Contains(t)
  }

  /** The passes of a hut took their draws in order, each its own distinct ones, as many as it recorded. */
  ghost predicate Chained(dr: HutDraws) {
    && dr.start <= dr.wallsFrom <= dr.lavaFrom <= dr.topFrom <= dr.stiltsFrom <= dr.stop
    && OwnDraws(dr.platform, dr.start, dr.wallsFrom) && dr.wallsFrom - dr.start == |dr.platform|
    && OwnDraws(dr.wall, dr.wallsFrom, dr.lavaFrom) && dr.lavaFrom - dr.wallsFrom == |dr.wall|
    && OwnDraws(dr.lava, dr.lavaFrom, dr.topFrom) && dr.topFrom - dr.lavaFrom == |dr.lava|
    && OwnDraws(dr.top, dr.topFrom, dr.stiltsFrom) && dr.stiltsFrom - dr.topFrom == |dr.top|
  }

  /** The draws of a built hut: each pass drew for exactly the decisions the source draws for. */
  ghost predicate DrewFor(region: Box, pl: Plan, lavaLevel: int, stream: nat -> real, dr: HutDraws) {
    && dr.platform.Keys == Cells(pl.platform)
    && PickKeys(dr.wall, region, pl.inner, WallBlockProb, stream, Cells(pl.outer))
    && LavaKeys(dr.lava, region, pl, Cells(pl.topOuter))
    && PickKeys(dr.top, region, pl.inner, WallTopBlockProb, stream, Cells(pl.topLayer))
    && dr.stop - dr.stiltsFrom == StiltDraws(pl, StiltBottom(region, pl, lavaLevel))
  }

  /** The draws of a hut: chained, for the decisions of a built hut, none for one not built. */
  ghost predicate Drew(chunk: Chunk, position: Vec3, hut: LavaHut, lavaLevel: int, stream: nat -> real, dr: HutDraws) {
    && Chained(dr)
    && (if Builds(chunk.Region(), position, hut)
        then DrewFor(chunk.Region(), PlanOf(position, hut), lavaLevel, stream, dr)
        else dr.start == dr.stop)
  }

  /** The draws of the huts of `visits`: one stretch of the generator per hut, in order, from `lo` to `hi`. */
  ghost predicate HutsDrew(chunk: Chunk, visits: seq<Visit>, lavaLevel: int, stream: nat -> real, lo: nat, hi: nat)
    decreases |visits|
  {
    if visits == [] then lo == hi
    else
      var v := visits[|visits| - 1];
      && Drew(chunk, v.position, v.hut, lavaLevel, stream, v.dr) && v.dr.stop == hi
      && HutsDrew(chunk, visits[..|visits| - 1], lavaLevel, stream, lo, v.dr.start)
  }

  // Loop states of the passes: the cells of `done` have been visited.

  ghost predicate PlatformUpTo(blocks: map<Vec3, Block>, before: map<Vec3, Block>, chunk: Chunk, pl: Plan,
                               stream: nat -> real, m: map<Vec3, nat>, done: set<Vec3>) {
    && blocks.Keys == before.Keys
    && forall q :: q in blocks ==>
         blocks[q] == if chunk.origin.Add(q) in done then PlatformCell(pl, stream, m, chunk.origin.Add(q), before[q]) else before[q]
  }

  ghost predicate PickUpTo(blocks: map<Vec3, Block>, before: map<Vec3, Block>, chunk: Chunk, box: Box, hollow: Box, prob: real,
                           stream: nat -> real, m: map<(Vec3, bool), nat>, done: set<Vec3>) {
    && blocks.Keys == before.Keys
    && forall q :: q in blocks ==>
         blocks[q] == if chunk.origin.Add(q) in done then PickCell(box, hollow, prob, stream, m, chunk.origin.Add(q), before[q]) else before[q]
  }

  ghost predicate LavaUpTo(blocks: map<Vec3, Block>, before: map<Vec3, Block>, chunk: Chunk, pl: Plan, lavaLevel: int,
                           stream: nat -> real, m: map<Vec3, nat>, done: set<Vec3>) {
    && blocks.Keys == before.Keys
    && forall q :: q in blocks ==>
         blocks[q] == if RingAbove(pl, chunk.origin.Add(q)) in done
                      then LavaCell(pl, chunk.Region(), lavaLevel, stream, m, chunk.origin.Add(q), before[q]) else before[q]
  }

  /** Visiting platform cell `p` with draw `k` keeps the loop state. */
  lemma PlatformStep(blocks: map<Vec3, Block>, blocks': map<Vec3, Block>, before: map<Vec3, Block>, chunk: Chunk, pl: Plan,
                     stream: nat -> real, m: map<Vec3, nat>, done: set<Vec3>, p: Vec3, k: nat, place: bool)
    requires chunk.Shaped() && before.Keys == Cells(chunk.RelBox()) && pl.platform.Contains(p) && p !in done
    requires PlatformUpTo(blocks, before, chunk, pl, stream, m, done) && m.Keys == done
    requires place <==> chunk.Region().Contains(p) && !pl.back.Contains(p) && stream(k) <= PlatformBlockProb
    requires blocks' == if place then blocks[chunk.Rel(p) := BasaltBricksSmall] else blocks
    ensures PlatformUpTo(blocks', before, chunk, pl, stream, m[p := k], done + {p})
  {
    RelInRegion(chunk);
    forall q | q in blocks'
      ensures blocks'[q] == if chunk.origin.Add(q) in done + {p} then PlatformCell(pl, stream, m[p := k], chunk.origin.Add(q), before[q]) else before[q]
    {
      var w := chunk.origin.Add(q);
      if w == p {
        assert chunk.Rel(p) == q;
      } else {
        assert Val(stream, m[p := k], w) == Val(stream, m, w);
        if place {
          RelOf(chunk, p);
        }
      }
    }
  }

  /** Visiting platform cell `p` with draw `k`, the next one, keeps the loop state. */
  lemma PlatformStateStep(blocks: map<Vec3, Block>, blocks': map<Vec3, Block>, before: map<Vec3, Block>, chunk: Chunk, pl: Plan,
                          stream: nat -> real, m: map<Vec3, nat>, done: set<Vec3>, lo: nat, p: Vec3, k: nat, place: bool)
    requires chunk.Shaped() && before.Keys == Cells(chunk.RelBox()) && pl.platform.Contains(p) && p !in done
    requires PlatformState(blocks, before, chunk, pl, stream, m, done, lo, k)
    requires place <==> chunk.Region().Contains(p) && !pl.back.Contains(p) && stream(k) <= PlatformBlockProb
    requires blocks' == if place then blocks[chunk.Rel(p) := BasaltBricksSmall] else blocks
    ensures PlatformState(blocks', before, chunk, pl, stream, m[p := k], done + {p}, lo, k + 1)
    ensures |m[p := k]| == |m| + 1
  {
    DrawAdd(m, lo, k, p);
    PlatformStep(blocks, blocks', before, chunk, pl, stream, m, done, p, k, place);
  }

  /** The platform loop's state: the cells of `done` visited, each with a draw of its own. */
  ghost predicate PlatformState(blocks: map<Vec3, Block>, before: map<Vec3, Block>, chunk: Chunk, pl: Plan,
                                stream: nat -> real, m: map<Vec3, nat>, done: set<Vec3>, lo: nat, used: nat) {
    PlatformUpTo(blocks, before, chunk, pl, stream, m, done) && m.Keys == done && OwnDraws(m, lo, used) && lo <= used
  }

  /** Once every platform cell is visited, the loop state is the platform pass. */
  lemma PlatformAll(blocks: map<Vec3, Block>, before: map<Vec3, Block>, chunk: Chunk, pl: Plan, stream: nat -> real, m: map<Vec3, nat>)
    requires PlatformUpTo(blocks, before, chunk, pl, stream, m, Cells(pl.platform))
    ensures blocks == PlatformPhase(before, chunk, pl, stream, m)
  {
  }

  /** A pick loop's state: the cells of `done` visited, each draw its own. */
  ghost predicate PickState(blocks: map<Vec3, Block>, before: map<Vec3, Block>, chunk: Chunk, box: Box, hollow: Box, prob: real,
                            stream: nat -> real, m: map<(Vec3, bool), nat>, done: set<Vec3>, lo: nat, used: nat) {
    && PickUpTo(blocks, before, chunk, box, hollow, prob, stream, m, done)
    && PickKeys(m, chunk.Region(), hollow, prob, stream, done)
    && OwnDraws(m, lo, used) && lo <= used
  }

  /** Visiting the cell `p` of a pick pass keeps the loop state: no draw off
      the chunk or in the hollow; else draw `k1`, and when it is at most `prob`, draw `k2` picks the block. */
  lemma PickStep(blocks: map<Vec3, Block>, blocks': map<Vec3, Block>, before: map<Vec3, Block>, chunk: Chunk,
                 box: Box, hollow: Box, prob: real, stream: nat -> real, m: map<(Vec3, bool), nat>, m': map<(Vec3, bool), nat>,
                 done: set<Vec3>, p: Vec3, k1: nat, k2: nat, visit: bool)
    requires chunk.Shaped() && before.Keys == Cells(chunk.RelBox()) && box.Contains(p) && p !in done
    requires PickUpTo(blocks, before, chunk, box, hollow, prob, stream, m, done)
    requires PickKeys(m, chunk.Region(), hollow, prob, stream, done)
    requires visit <==> chunk.Region().Contains(p) && !hollow.Contains(p)
    requires m' == if !visit then m else if stream(k1) > prob then m[(p, false) := k1] else m[(p, false) := k1][(p, true) := k2]
    requires blocks' == if visit && stream(k1) <= prob
                        then blocks[chunk.Rel(p) := if stream(k2) <= UpperCrackedBlockProb then BasaltBricksTriple else BasaltBricksSmall]
                        else blocks
    ensures PickUpTo(blocks', before, chunk, box, hollow, prob, stream, m', done + {p})
    ensures PickKeys(m', chunk.Region(), hollow, prob, stream, done + {p})
  {
    forall q | q in blocks'
      ensures blocks'[q] == if chunk.origin.Add(q) in done + {p} then PickCell(box, hollow, prob, stream, m', chunk.origin.Add(q), before[q]) else before[q]
    {
      PickCellStep(blocks, blocks', before, chunk, box, hollow, prob, stream, m, m', done, p, k1, k2, visit, q);
    }
    PickKeysStep(m, m', chunk.Region(), hollow, prob, stream, done, p, k1, k2, visit);
  }

  /** The draws of a visited pick cell `p` from draw `k1` on: the first, and the second when the first is at most `prob`. */
  function PickMarks(m: map<(Vec3, bool), nat>, p: Vec3, stream: nat -> real, prob: real, k1: nat): map<(Vec3, bool), nat> {
    if stream(k1) > prob then m[(p, false) := k1] else m[(p, false) := k1][(p, true) := k1 + 1]
  }

  /** The generator's position after a visited pick cell whose draws start at `k1`. */
  function PickUsed(stream: nat -> real, prob: real, k1: nat): nat {
    if stream(k1) > prob then k1 + 1 else k1 + 2
  }

  /** The chunk after a visited pick cell `p` whose draws start at `k1`. */
  function PickBlocks(blocks: map<Vec3, Block>, chunk: Chunk, p: Vec3, stream: nat -> real, prob: real, k1: nat): map<Vec3, Block>
    requires chunk.Sized()
  {
    if stream(k1) <= prob
    then blocks[chunk.Rel(p) := if stream(k1 + 1) <= UpperCrackedBlockProb then BasaltBricksTriple else BasaltBricksSmall]
    else blocks
  }

  /** Visiting the cell `p` of a pick pass with the next draws `k1` and `k1 + 1` keeps the loop state. */
  lemma PickStateStep(blocks: map<Vec3, Block>, blocks': map<Vec3, Block>, before: map<Vec3, Block>, chunk: Chunk,
                      box: Box, hollow: Box, prob: real, stream: nat -> real, m: map<(Vec3, bool), nat>, m': map<(Vec3, bool), nat>,
                      done: set<Vec3>, lo: nat, p: Vec3, k1: nat, used: nat, visit: bool)
    requires chunk.Shaped() && before.Keys == Cells(chunk.RelBox()) && box.Contains(p) && p !in done
    requires PickState(blocks, before, chunk, box, hollow, prob, stream, m, done, lo, k1)
    requires visit <==> chunk.Region().Contains(p) && !hollow.Contains(p)
    requires m' == if visit then PickMarks(m, p, stream, prob, k1) else m
    requires used == if visit then PickUsed(stream, prob, k1) else k1
    requires blocks' == if visit then PickBlocks(blocks, chunk, p, stream, prob, k1) else blocks
    ensures PickState(blocks', before, chunk, box, hollow, prob, stream, m', done + {p}, lo, used)
    ensures used - k1 == |m'| - |m|
  {
    if visit {
      DrawAdd(m, lo, k1, (p, false));
      if stream(k1) <= prob {
        DrawAdd(m[(p, false) := k1], lo, k1 + 1, (p, true));
      }
    }
    PickStep(blocks, blocks', before, chunk, box, hollow, prob, stream, m, m', done, p, k1, k1 + 1, visit);
  }

  /** The draws of a pick pass after visiting `p`: one more for `p` when it is visited, a second when the first is at most `prob`. */
  lemma PickKeysStep(m: map<(Vec3, bool), nat>, m': map<(Vec3, bool), nat>, region: Box, hollow: Box, prob: real,
                     stream: nat -> real, done: set<Vec3>, p: Vec3, k1: nat, k2: nat, visit: bool)
    requires PickKeys(m, region, hollow, prob, stream, done) && p !in done
    requires visit <==> region.Contains(p) && !hollow.Contains(p)
    requires m' == if !visit then m else if stream(k1) > prob then m[(p, false) := k1] else m[(p, false) := k1][(p, true) := k2]
    ensures PickKeys(m', region, hollow, prob, stream, done + {p})
  {
    forall k
      ensures k in m' <==> k.0 in done + {p} && region.Contains(k.0) && !hollow.Contains(k.0) && (k.1 ==> Val(stream, m', (k.0, false)) <= prob)
    {
      if k.0 != p {
        assert (k in m' <==> k in m) && Val(stream, m', (k.0, false)) == Val(stream, m, (k.0, false));
        assert k in m' <==> k.0 in done + {p} && region.Contains(k.0) && !hollow.Contains(k.0) && (k.1 ==> Val(stream, m', (k.0, false)) <= prob);
      } else {
        assert k == (p, k.1) && k !in m;
        if visit {
          assert Val(stream, m', (p, false)) == stream(k1);
          assert (p, false) in m';
          assert (p, true) in m' <==> stream(k1) <= prob;
          assert k in m' <==> k.0 in done + {p} && region.Contains(k.0) && !hollow.Contains(k.0) && (k.1 ==> Val(stream, m', (k.0, false)) <= prob);
        } else {
          assert k in m' <==> k.0 in done + {p} && region.Contains(k.0) && !hollow.Contains(k.0) && (k.1 ==> Val(stream, m', (k.0, false)) <= prob);
        }
      }
    }
  }

  /** `PickStep` at a single chunk cell `q`. */
  lemma PickCellStep(blocks: map<Vec3, Block>, blocks': map<Vec3, Block>, before: map<Vec3, Block>, chunk: Chunk,
                     box: Box, hollow: Box, prob: real, stream: nat -> real, m: map<(Vec3, bool), nat>, m': map<(Vec3, bool), nat>,
                     done: set<Vec3>, p: Vec3, k1: nat, k2: nat, visit: bool, q: Vec3)
    requires chunk.Shaped() && before.Keys == Cells(chunk.RelBox()) && box.Contains(p) && p !in done
    requires PickUpTo(blocks, before, chunk, box, hollow, prob, stream, m, done)
    requires visit <==> chunk.Region().Contains(p) && !hollow.Contains(p)
    requires m' == if !visit then m else if stream(k1) > prob then m[(p, false) := k1] else m[(p, false) := k1][(p, true) := k2]
    requires blocks' == if visit && stream(k1) <= prob
                        then blocks[chunk.Rel(p) := if stream(k2) <= UpperCrackedBlockProb then BasaltBricksTriple else BasaltBricksSmall]
                        else blocks
    requires q in blocks'
    ensures blocks'[q] == if chunk.origin.Add(q) in done + {p} then PickCell(box, hollow, prob, stream, m', chunk.origin.Add(q), before[q]) else before[q]
  {
    var w := chunk.origin.Add(q);
    RelInRegion(chunk);
    if w == p {
      assert chunk.Rel(p) == q;
      if visit {
        assert Val(stream, m', (p, false)) == stream(k1);
        if stream(k1) <= prob {
          assert Val(stream, m', (p, true)) == stream(k2);
        }
      }
    } else {
      assert Val(stream, m', (w, false)) == Val(stream, m, (w, false));
      assert Val(stream, m', (w, true)) == Val(stream, m, (w, true));
      if visit && stream(k1) <= prob {
        RelOf(chunk, p);
        assert q != chunk.Rel(p);
      }
    }
  }

  /** Once every cell of the box is visited, the loop state is the pick pass. */
  lemma PickAll(blocks: map<Vec3, Block>, before: map<Vec3, Block>, chunk: Chunk, box: Box, hollow: Box, prob: real,
                stream: nat -> real, m: map<(Vec3, bool), nat>)
    requires PickUpTo(blocks, before, chunk, box, hollow, prob, stream, m, Cells(box))
    ensures blocks == PickPhase(before, chunk, box, hollow, prob, stream, m)
  {
  }

  /** The lava loop's state: the ring cells of `done` visited, each draw its own. */
  ghost predicate LavaState(blocks: map<Vec3, Block>, before: map<Vec3, Block>, chunk: Chunk, pl: Plan, lavaLevel: int,
                            stream: nat -> real, m: map<Vec3, nat>, done: set<Vec3>, lo: nat, used: nat) {
    && LavaUpTo(blocks, before, chunk, pl, lavaLevel, stream, m, done)
    && LavaKeys(m, chunk.Region(), pl, done)
    && (forall t :: t in done ==> pl.topOuter.Contains(t))
    && OwnDraws(m, lo, used) && lo <= used
  }

  /** Visiting the ring cell `p` keeps the loop state: no draw off the chunk
      or in the hole; else draw `k`, and when it is at most 0.15 the column below `p` down to the lava level turns to lava. */
  lemma LavaStep(blocks: map<Vec3, Block>, blocks': map<Vec3, Block>, before: map<Vec3, Block>, chunk: Chunk, pl: Plan,
                 lavaLevel: int, stream: nat -> real, m: map<Vec3, nat>, m': map<Vec3, nat>,
                 done: set<Vec3>, p: Vec3, k: nat, visit: bool)
    requires chunk.Shaped() && before.Keys == Cells(chunk.RelBox()) && pl.topOuter.Contains(p) && p !in done
    requires pl.topOuter.min.y == pl.topOuter.max.y
    requires LavaUpTo(blocks, before, chunk, pl, lavaLevel, stream, m, done)
    requires LavaKeys(m, chunk.Region(), pl, done) && forall t :: t in done ==> pl.topOuter.Contains(t)
    requires visit <==> chunk.Region().Contains(p) && !pl.topInner.Contains(p)
    requires m' == if visit then m[p := k] else m
    requires blocks'.Keys == blocks.Keys
    requires forall q :: q in blocks' ==>
      blocks'[q] == if visit && stream(k) <= LavaSpawnProb && Column(chunk.origin.Add(q)) == Column(p) && lavaLevel <= chunk.origin.Add(q).y <= p.y
                    then Lava else blocks[q]
    ensures LavaUpTo(blocks', before, chunk, pl, lavaLevel, stream, m', done + {p})
    ensures LavaKeys(m', chunk.Region(), pl, done + {p})
  {
    assert p.y == pl.topOuter.min.y;
    forall q | q in blocks'
      ensures blocks'[q] == if RingAbove(pl, chunk.origin.Add(q)) in done + {p}
                            then LavaCell(pl, chunk.Region(), lavaLevel, stream, m', chunk.origin.Add(q), before[q]) else before[q]
    {
      var w := chunk.origin.Add(q);
      if RingAbove(pl, w) != p {
        assert Val(stream, m', RingAbove(pl, w)) == Val(stream, m, RingAbove(pl, w));
      }
    }
  }

  /** Once every ring cell is visited, the loop state is the lava pass. */
  lemma LavaAll(blocks: map<Vec3, Block>, before: map<Vec3, Block>, chunk: Chunk, pl: Plan, lavaLevel: int,
                stream: nat -> real, m: map<Vec3, nat>)
    requires LavaUpTo(blocks, before, chunk, pl, lavaLevel, stream, m, Cells(pl.topOuter))
    ensures blocks == LavaPhase(before, chunk, pl, lavaLevel, stream, m)
  {
  }

  /** The stilt loop's state: the levels from the top down to `y` placed, and their draws taken. */
  ghost predicate StiltState(blocks: map<Vec3, Block>, before: map<Vec3, Block>, chunk: Chunk, pl: Plan,
                             stream: nat -> real, lo: nat, y: int, used: nat) {
    && chunk.Sized() && before.Keys == Cells(chunk.RelBox())
    && blocks == Stilts(before, chunk, pl, stream, lo, y)
    && used == lo + StiltDraws(pl, y)
  }

  /** Where the stilt loop stops: one below the last level it placed. */
  lemma StiltExit(region: Box, pl: Plan, lavaLevel: int, c: Vec3)
    requires c == Vec3(pl.p1.x, c.y, pl.p1.z) && c.y <= pl.stiltTop
    requires c.y < pl.stiltTop ==>
      region.Contains(Vec3(pl.p1.x, pl.stiltTop, pl.p1.z)) && pl.stiltTop >= lavaLevel && c.y + 1 >= region.min.y && c.y + 1 >= lavaLevel
    requires !(region.Contains(c) && c.y >= lavaLevel)
    ensures StiltBottom(region, pl, lavaLevel) == c.y + 1
  {
  }

  /** Placing stilt level `y` from the hut's floor up keeps the loop state: four small bricks, no draw. */
  lemma SmallLevelStep(blocks: map<Vec3, Block>, blocks': map<Vec3, Block>, before: map<Vec3, Block>, chunk: Chunk, pl: Plan,
                       stream: nat -> real, lo: nat, y: int, u: nat)
    requires pl.p2.y <= y <= pl.stiltTop && StiltState(blocks, before, chunk, pl, stream, lo, y + 1, u)
    requires blocks' == Corners(blocks, chunk, pl, stream, lo, y, 4)
    ensures StiltState(blocks', before, chunk, pl, stream, lo, y, u)
  {
  }

  /** Placing stilt level `y` below the hut's floor keeps the loop state: four picks with the next four draws. */
  lemma LowerLevelStep(blocks: map<Vec3, Block>, blocks': map<Vec3, Block>, before: map<Vec3, Block>, chunk: Chunk, pl: Plan,
                       stream: nat -> real, lo: nat, y: int, u: nat)
    requires y <= pl.stiltTop && y < pl.p2.y && StiltState(blocks, before, chunk, pl, stream, lo, y + 1, u)
    requires blocks' == Corners(blocks, chunk, pl, stream, lo, y, 4)
    ensures StiltState(blocks', before, chunk, pl, stream, lo, y, u + 4)
  {
    assert StiltDraws(pl, y) == StiltDraws(pl, y + 1) + 4;
  }

  /** `visits` lists the entries of `huts` whose key is not in `todo`, each once. */
  ghost predicate Listing(huts: map<Vec3, LavaHut>, visits: seq<Visit>, todo: set<Vec3>) {
    && todo <= huts.Keys
    && (forall i :: 0 <= i < |visits| ==> visits[i].position in huts && visits[i].hut == huts[visits[i].position])
    && (forall i, j :: 0 <= i < j < |visits| ==> visits[i].position != visits[j].position)
    && (forall p :: p in huts ==> ((exists i :: 0 <= i < |visits| && visits[i].position == p) <==> p !in todo))
  }

  /** A key still to do is a key of the facet, and doing it shrinks what is left. */
  lemma ListingHas(huts: map<Vec3, LavaHut>, visits: seq<Visit>, todo: set<Vec3>, position: Vec3)
    requires Listing(huts, visits, todo) && position in todo
    ensures position in huts && |todo - {position}| < |todo|
  {
    assert |todo - {position}| == |todo| - 1;
  }

  lemma ListingAdd(huts: map<Vec3, LavaHut>, visits: seq<Visit>, todo: set<Vec3>, v: Visit)
    requires Listing(huts, visits, todo) && v.position in todo && v.hut == huts[v.position]
    ensures Listing(huts, visits + [v], todo - {v.position})
  {
    var visits' := visits + [v];
    forall p | p in huts
      ensures (exists i :: 0 <= i < |visits'| && visits'[i].position == p) <==> p !in todo - {v.position}
    {
      if p == v.position {
        assert visits'[|visits|].position == p;
      } else if exists i :: 0 <= i < |visits| && visits[i].position == p {
        var i :| 0 <= i < |visits| && visits[i].position == p;
        assert visits'[i].position == p;
      }
    }
  }

  /** Drawing one more hut applies its passes to the huts drawn so far. */
  lemma {:induction false} HutsSnoc(blocks: map<Vec3, Block>, chunk: Chunk, visits: seq<Visit>, lavaLevel: int, stream: nat -> real, v: Visit)
    requires chunk.Sized() && blocks.Keys == Cells(chunk.RelBox())
    ensures Huts(blocks, chunk, visits + [v], lavaLevel, stream)
         == HutAt(Huts(blocks, chunk, visits, lavaLevel, stream), chunk, v.position, v.hut, lavaLevel, stream, v.dr)
  {
    var w := visits + [v];
    assert w[..|w| - 1] == visits && w[|w| - 1] == v;
  }

  /** A hut whose draws start where the earlier huts' end extends their stretch of the generator. */
  lemma {:induction false} HutsDrewSnoc(chunk: Chunk, visits: seq<Visit>, lavaLevel: int, stream: nat -> real, lo: nat, mid: nat, v: Visit)
    requires HutsDrew(chunk, visits, lavaLevel, stream, lo, mid)
    requires Drew(chunk, v.position, v.hut, lavaLevel, stream, v.dr) && v.dr.start == mid
    ensures HutsDrew(chunk, visits + [v], lavaLevel, stream, lo, v.dr.stop)
  {
    assert (visits + [v])[..|visits|] == visits;
  }

  class LavaHutRasterizer {
    const random: RandomSource

    constructor (source: RandomSource)
      ensures random == source
    {
      random := source;
    }

    /** `generateChunk`: the huts of the facet are drawn one after another, in
        the order the facet's map yields them, each with its own stretch of
        draws; a hut that is not built takes no draw. */
    method GenerateChunk(chunk: Chunk, huts: map<Vec3, LavaHut>, lavaLevel: int) returns (ghost visits: seq<Visit>)
      requires chunk.Valid() && random.Valid()
      modifies chunk, random
      ensures chunk.Valid()
      ensures Listing(huts, visits, {})
      ensures chunk.blocks == Huts(old(chunk.blocks), chunk, visits, lavaLevel, random.stream)
      ensures HutsDrew(chunk, visits, lavaLevel, random.stream, old(random.used), random.used)
    {
      ghost var before := chunk.blocks;
      ghost var lo := random.used;
      visits := [];
      var todo := huts.Keys;
      while todo != {}
        invariant chunk.Valid()
        invariant Listing(huts, visits, todo)
        invariant chunk.blocks == Huts(before, chunk, visits, lavaLevel, random.stream)
        invariant HutsDrew(chunk, visits, lavaLevel, random.stream, lo, random.used)
        decreases |todo|
      {
        todo, visits := HutTurn(chunk, huts, lavaLevel, before, lo, todo, visits);
      }
    }

    /** One turn of the loop of `generateChunk`: the next hut of the facet. */
    method HutTurn(chunk: Chunk, huts: map<Vec3, LavaHut>, lavaLevel: int, ghost before: map<Vec3, Block>, ghost lo: nat,
                   todo: set<Vec3>, ghost visits: seq<Visit>)
      returns (todo': set<Vec3>, ghost visits': seq<Visit>)
      requires chunk.Valid() && random.Valid() && todo != {}
      requires before.Keys == Cells(chunk.RelBox())
      requires Listing(huts, visits, todo)
      requires chunk.blocks == Huts(before, chunk, visits, lavaLevel, random.stream)
      requires HutsDrew(chunk, visits, lavaLevel, random.stream, lo, random.used)
      modifies chunk, random
      ensures chunk.Valid() && |todo'| < |todo|
      ensures Listing(huts, visits', todo')
      ensures chunk.blocks == Huts(before, chunk, visits', lavaLevel, random.stream)
      ensures HutsDrew(chunk, visits', lavaLevel, random.stream, lo, random.used)
    {
      var position :| position in todo;
      ListingHas(huts, visits, todo, position);
      todo' := todo - {position};
      var lavaHut := huts[position];
      ghost var v := HutStep(chunk, lavaLevel, before, lo, visits, position, lavaHut);
      ListingAdd(huts, visits, todo, v);
      visits' := visits + [v];
    }

    /** The hut at `position` drawn after those of `visits`. */
    method HutStep(chunk: Chunk, lavaLevel: int, ghost before: map<Vec3, Block>, ghost lo: nat,
                   ghost visits: seq<Visit>, position: Vec3, lavaHut: LavaHut)
      returns (ghost v: Visit)
      requires chunk.Valid() && random.Valid()
      requires before.Keys == Cells(chunk.RelBox())
      requires chunk.blocks == Huts(before, chunk, visits, lavaLevel, random.stream)
      requires HutsDrew(chunk, visits, lavaLevel, random.stream, lo, random.used)
      modifies chunk, random
      ensures chunk.Valid() && v.position == position && v.hut == lavaHut
      ensures chunk.blocks == Huts(before, chunk, visits + [v], lavaLevel, random.stream)
      ensures HutsDrew(chunk, visits + [v], lavaLevel, random.stream, lo, random.used)
    {
      ghost var mid := random.used;
      ghost var dr := DrawHut(chunk, position, lavaHut, lavaLevel);
      v := Visit(position, lavaHut, dr);
      HutsSnoc(before, chunk, visits, lavaLevel, random.stream, v);
      HutsDrewSnoc(chunk, visits, lavaLevel, random.stream, lo, mid, v);
    }

    /** One hut: nothing unless its anchor is in the chunk and its whole
        platform fits; otherwise the five passes with the draws they took. */
    method DrawHut(chunk: Chunk, position: Vec3, lavaHut: LavaHut, lavaLevel: int) returns (ghost dr: HutDraws)
      requires chunk.Valid() && random.Valid()
      modifies chunk, random
      ensures chunk.Valid()
      ensures chunk.blocks == HutAt(old(chunk.blocks), chunk, position, lavaHut, lavaLevel, random.stream, dr)
      ensures Drew(chunk, position, lavaHut, lavaLevel, random.stream, dr)
      ensures dr.start == old(random.used) && dr.stop == random.used
    {
      var pl := PlanOf(position, lavaHut);
      if !chunk.Region().Contains(position) {
        dr := NoDraws(random.used);
        return;
      }
      var fits := IsEncompassed(pl.platform, chunk.Region());
      if !fits {
        dr := NoDraws(random.used);
        return;
      }
      ghost var m0 := random.used;
      ghost var mp := PlacePlatform(chunk, pl);
      ghost var m1 := random.used;
      ghost var mw := PlacePicks(chunk, pl.outer, pl.inner, WallBlockProb);
      ghost var m2 := random.used;
      ghost var ml := PlaceLava(chunk, pl, lavaLevel);
      ghost var m3 := random.used;
      ghost var mt := PlacePicks(chunk, pl.topLayer, pl.inner, WallTopBlockProb);
      ghost var m4 := random.used;
      PlaceStilts(chunk, pl, lavaLevel);
      dr := HutDraws(mp, mw, ml, mt, m0, m1, m2, m3, m4, random.used);
    }

    /** `isEncompassed(checkRegion, chunkRegion)`: every position of the first box is in the second. */
    method IsEncompassed(checkRegion: Box, chunkRegion: Box) returns (r: bool)
      ensures r <==> Encompassed(checkRegion, chunkRegion)
    {
      var todo := Cells(checkRegion);
      while todo != {}
        invariant todo <= Cells(checkRegion)
        invariant forall p :: checkRegion.Contains(p) && p !in todo ==> chunkRegion.Contains(p)
        decreases |todo|
      {
        var pos :| pos in todo;
        if !chunkRegion.Contains(pos) {
          return false;
        }
        todo := todo - {pos};
      }
      return true;
    }

    /** `placeWithProbability(pos, block1, block2, prob)`: one draw, and
        exactly one block written: `block1` when the draw is at most `prob`, `block2` otherwise. */
    method PlaceWithProbability(chunk: Chunk, pos: Vec3, block1: Block, block2: Block, prob: real)
      requires chunk.Valid() && random.Valid()
      modifies chunk, random
      ensures chunk.Valid() && random.used == old(random.used) + 1
      ensures chunk.blocks == old(chunk.blocks)[chunk.Rel(pos) := if random.stream(old(random.used)) <= prob then block1 else block2]
    {
      var r := random.NextFloat();
      if r <= prob {
        chunk.SetBlock(pos, block1);
      } else {
        chunk.SetBlock(pos, block2);
      }
    }

    /** The platform pass: one draw per platform cell; a brick off the back strip when it is at most 0.9. */
    method PlacePlatform(chunk: Chunk, pl: Plan) returns (ghost m: map<Vec3, nat>)
      requires chunk.Valid() && random.Valid()
      modifies chunk, random
      ensures chunk.Valid()
      ensures chunk.blocks == PlatformPhase(old(chunk.blocks), chunk, pl, random.stream, m)
      ensures m.Keys == Cells(pl.platform)
      ensures OwnDraws(m, old(random.used), random.used) && random.used == old(random.used) + |m|
    {
      ghost var before := chunk.blocks;
      ghost var lo := random.used;
      m := map[];
      var todo := Cells(pl.platform);
      ghost var done: set<Vec3> := {};
      while todo != {}
        invariant chunk.Valid()
        invariant done + todo == Cells(pl.platform) && done !! todo
        invariant PlatformState(chunk.blocks, before, chunk, pl, random.stream, m, done, lo, random.used)
        invariant random.used == lo + |m|
        decreases |todo|
      {
        todo, done, m := PlatformTurn(chunk, pl, before, todo, done, m, lo);
      }
      PlatformAll(chunk.blocks, before, chunk, pl, random.stream, m);
    }

    /** One turn of the platform loop. */
    method PlatformTurn(chunk: Chunk, pl: Plan, ghost before: map<Vec3, Block>, todo: set<Vec3>, ghost done: set<Vec3>,
                        ghost m: map<Vec3, nat>, ghost lo: nat)
      returns (todo': set<Vec3>, ghost done': set<Vec3>, ghost m': map<Vec3, nat>)
      requires chunk.Valid() && random.Valid() && todo != {}
      requires done + todo == Cells(pl.platform) && done !! todo
      requires PlatformState(chunk.blocks, before, chunk, pl, random.stream, m, done, lo, random.used)
      modifies chunk, random
      ensures chunk.Valid()
      ensures done' + todo' == Cells(pl.platform) && done' !! todo' && |todo'| < |todo|
      ensures PlatformState(chunk.blocks, before, chunk, pl, random.stream, m', done', lo, random.used)
      ensures random.used - old(random.used) == |m'| - |m|
    {
      var blockPos :| blockPos in todo;
      TakeOne(Cells(pl.platform), done, todo, blockPos);
      todo' := todo - {blockPos};
      done' := done + {blockPos};
      m' := VisitPlatform(chunk, pl, before, m, done, lo, blockPos);
    }

    method VisitPlatform(chunk: Chunk, pl: Plan, ghost before: map<Vec3, Block>, ghost m: map<Vec3, nat>,
                         ghost done: set<Vec3>, ghost lo: nat, blockPos: Vec3) returns (ghost m': map<Vec3, nat>)
      requires chunk.Valid() && random.Valid() && blockPos !in done && pl.platform.Contains(blockPos)
      requires PlatformState(chunk.blocks, before, chunk, pl, random.stream, m, done, lo, random.used)
      modifies chunk, random
      ensures chunk.Valid()
      ensures PlatformState(chunk.blocks, before, chunk, pl, random.stream, m', done + {blockPos}, lo, random.used)
      ensures random.used == old(random.used) + 1 && |m'| == |m| + 1
    {
      ghost var k := random.used;
      ghost var blocks := chunk.blocks;
      var platformBlockProb := random.NextFloat();
      var place := chunk.Region().Contains(blockPos) && !pl.back.Contains(blockPos) && platformBlockProb <= PlatformBlockProb;
      if place {
        chunk.SetBlock(blockPos, BasaltBricksSmall);
      }
      PlatformStateStep(blocks, chunk.blocks, before, chunk, pl, random.stream, m, done, lo, blockPos, k, place);
      m' := m[blockPos := k];
    }

    /** A pick pass (the walls, or the top ring): for each cell of `box` in the
        chunk and outside `hollow`, a draw; when it is at most `prob`, `placeWithProbability`. */
    method PlacePicks(chunk: Chunk, box: Box, hollow: Box, prob: real) returns (ghost m: map<(Vec3, bool), nat>)
      requires chunk.Valid() && random.Valid()
      modifies chunk, random
      ensures chunk.Valid()
      ensures chunk.blocks == PickPhase(old(chunk.blocks), chunk, box, hollow, prob, random.stream, m)
      ensures PickKeys(m, chunk.Region(), hollow, prob, random.stream, Cells(box))
      ensures OwnDraws(m, old(random.used), random.used) && random.used == old(random.used) + |m|
    {
      ghost var before := chunk.blocks;
      ghost var lo := random.used;
      m := map[];
      var todo := Cells(box);
      ghost var done: set<Vec3> := {};
      while todo != {}
        invariant chunk.Valid()
        invariant done + todo == Cells(box) && done !! todo
        invariant PickState(chunk.blocks, before, chunk, box, hollow, prob, random.stream, m, done, lo, random.used)
        invariant random.used == lo + |m|
        decreases |todo|
      {
        todo, done, m := PickTurn(chunk, box, hollow, prob, before, todo, done, m, lo);
      }
      PickAll(chunk.blocks, before, chunk, box, hollow, prob, random.stream, m);
    }

    /** One turn of a pick loop. */
    method PickTurn(chunk: Chunk, box: Box, hollow: Box, prob: real, ghost before: map<Vec3, Block>,
                    todo: set<Vec3>, ghost done: set<Vec3>, ghost m: map<(Vec3, bool), nat>, ghost lo: nat)
      returns (todo': set<Vec3>, ghost done': set<Vec3>, ghost m': map<(Vec3, bool), nat>)
      requires chunk.Valid() && random.Valid() && todo != {}
      requires done + todo == Cells(box) && done !! todo
      requires PickState(chunk.blocks, before, chunk, box, hollow, prob, random.stream, m, done, lo, random.used)
      modifies chunk, random
      ensures chunk.Valid()
      ensures done' + todo' == Cells(box) && done' !! todo' && |todo'| < |todo|
      ensures PickState(chunk.blocks, before, chunk, box, hollow, prob, random.stream, m', done', lo, random.used)
      ensures random.used - old(random.used) == |m'| - |m|
    {
      var blockPos :| blockPos in todo;
      TakeOne(Cells(box), done, todo, blockPos);
      todo' := todo - {blockPos};
      done' := done + {blockPos};
      m' := VisitPick(chunk, box, hollow, prob, before, m, done, lo, blockPos);
    }

    method VisitPick(chunk: Chunk, box: Box, hollow: Box, prob: real, ghost before: map<Vec3, Block>,
                     ghost m: map<(Vec3, bool), nat>, ghost done: set<Vec3>, ghost lo: nat, blockPos: Vec3)
      returns (ghost m': map<(Vec3, bool), nat>)
      requires chunk.Valid() && random.Valid() && blockPos !in done && box.Contains(blockPos)
      requires PickState(chunk.blocks, before, chunk, box, hollow, prob, random.stream, m, done, lo, random.used)
      modifies chunk, random
      ensures chunk.Valid()
      ensures PickState(chunk.blocks, before, chunk, box, hollow, prob, random.stream, m', done + {blockPos}, lo, random.used)
      ensures random.used - old(random.used) == |m'| - |m|
    {
      ghost var blocks := chunk.blocks;
      ghost var k1 := random.used;
      var visit := chunk.Region().Contains(blockPos) && !hollow.Contains(blockPos);
      if visit {
        DrawPick(chunk, blockPos, prob);
        m' := PickMarks(m, blockPos, random.stream, prob, k1);
      } else {
        m' := m;
      }
      PickStateStep(blocks, chunk.blocks, before, chunk, box, hollow, prob, random.stream, m, m', done, lo, blockPos, k1, random.used, visit);
    }

    /** A visited pick cell: a draw, and when it is at most `prob`, `placeWithProbability(top cracked, top, 0.35)`. */
    method DrawPick(chunk: Chunk, blockPos: Vec3, prob: real)
      requires chunk.Valid() && random.Valid()
      modifies chunk, random
      ensures chunk.Valid()
      ensures random.used == PickUsed(random.stream, prob, old(random.used))
      ensures chunk.blocks == PickBlocks(old(chunk.blocks), chunk, blockPos, random.stream, prob, old(random.used))
    {
      var r := random.NextFloat();
      if r <= prob {
        PlaceWithProbability(chunk, blockPos, BasaltBricksTriple, BasaltBricksSmall, UpperCrackedBlockProb);
      }
    }

    /** The lava pass: for each cell of the ring square in the chunk and off its
        hole, a draw; when it is at most 0.15, a lava column falls from it. */
    method PlaceLava(chunk: Chunk, pl: Plan, lavaLevel: int) returns (ghost m: map<Vec3, nat>)
      requires chunk.Valid() && random.Valid()
      requires pl.topOuter.min.y == pl.topOuter.max.y
      modifies chunk, random
      ensures chunk.Valid()
      ensures chunk.blocks == LavaPhase(old(chunk.blocks), chunk, pl, lavaLevel, random.stream, m)
      ensures LavaKeys(m, chunk.Region(), pl, Cells(pl.topOuter))
      ensures OwnDraws(m, old(random.used), random.used) && random.used == old(random.used) + |m|
    {
      ghost var before := chunk.blocks;
      ghost var lo := random.used;
      m := map[];
      var todo := Cells(pl.topOuter);
      ghost var done: set<Vec3> := {};
      while todo != {}
        invariant chunk.Valid()
        invariant done + todo == Cells(pl.topOuter) && done !! todo
        invariant LavaState(chunk.blocks, before, chunk, pl, lavaLevel, random.stream, m, done, lo, random.used)
        invariant random.used == lo + |m|
        decreases |todo|
      {
        todo, done, m := RingTurn(chunk, pl, lavaLevel, before, todo, done, m, lo);
      }
      LavaAll(chunk.blocks, before, chunk, pl, lavaLevel, random.stream, m);
    }

    /** One turn of the lava loop. */
    method RingTurn(chunk: Chunk, pl: Plan, lavaLevel: int, ghost before: map<Vec3, Block>,
                    todo: set<Vec3>, ghost done: set<Vec3>, ghost m: map<Vec3, nat>, ghost lo: nat)
      returns (todo': set<Vec3>, ghost done': set<Vec3>, ghost m': map<Vec3, nat>)
      requires chunk.Valid() && random.Valid() && todo != {}
      requires pl.topOuter.min.y == pl.topOuter.max.y
      requires done + todo == Cells(pl.topOuter) && done !! todo
      requires LavaState(chunk.blocks, before, chunk, pl, lavaLevel, random.stream, m, done, lo, random.used)
      modifies chunk, random
      ensures chunk.Valid()
      ensures done' + todo' == Cells(pl.topOuter) && done' !! todo' && |todo'| < |todo|
      ensures LavaState(chunk.blocks, before, chunk, pl, lavaLevel, random.stream, m', done', lo, random.used)
      ensures random.used - old(random.used) == |m'| - |m|
    {
      var blockPos :| blockPos in todo;
      TakeOne(Cells(pl.topOuter), done, todo, blockPos);
      todo' := todo - {blockPos};
      done' := done + {blockPos};
      m' := VisitRing(chunk, pl, lavaLevel, before, m, done, lo, blockPos);
    }

    method VisitRing(chunk: Chunk, pl: Plan, lavaLevel: int, ghost before: map<Vec3, Block>, ghost m: map<Vec3, nat>,
                     ghost done: set<Vec3>, ghost lo: nat, blockPos: Vec3) returns (ghost m': map<Vec3, nat>)
      requires chunk.Valid() && random.Valid() && blockPos !in done && pl.topOuter.Contains(blockPos)
      requires pl.topOuter.min.y == pl.topOuter.max.y
      requires LavaState(chunk.blocks, before, chunk, pl, lavaLevel, random.stream, m, done, lo, random.used)
      modifies chunk, random
      ensures chunk.Valid()
      ensures LavaState(chunk.blocks, before, chunk, pl, lavaLevel, random.stream, m', done + {blockPos}, lo, random.used)
      ensures random.used - old(random.used) == |m'| - |m|
    {
      ghost var blocks := chunk.blocks;
      ghost var k := random.used;
      var visit := chunk.Region().Contains(blockPos) && !pl.topInner.Contains(blockPos);
      m' := m;
      if visit {
        var r := random.NextFloat();
        DrawAdd(m, lo, k, blockPos);
        m' := m[blockPos := k];
        if r <= LavaSpawnProb {
          LavaColumn(chunk, blockPos, lavaLevel);
        }
      }
      LavaStep(blocks, chunk.blocks, before, chunk, pl, lavaLevel, random.stream, m, m', done, blockPos, k, visit);
    }

    /** One lava column: from `top` down, lava while the position is in the
        chunk and not below the lava level. */
    method LavaColumn(chunk: Chunk, top: Vec3, lavaLevel: int)
      requires chunk.Valid()
      modifies chunk
      ensures chunk.Valid() && chunk.blocks.Keys == old(chunk.blocks).Keys
      ensures forall q :: q in chunk.blocks ==>
        chunk.blocks[q] == if chunk.Region().Contains(top) && Column(chunk.origin.Add(q)) == Column(top)
                                && lavaLevel <= chunk.origin.Add(q).y <= top.y
                           then Lava else old(chunk.blocks)[q]
    {
      ghost var before := chunk.blocks;
      var lavaPos := top;
      while chunk.Region().Contains(lavaPos) && lavaPos.y >= lavaLevel
        invariant chunk.Valid() && chunk.blocks.Keys == before.Keys
        invariant lavaPos.x == top.x && lavaPos.z == top.z && lavaPos.y <= top.y
        invariant lavaPos.y < top.y ==> chunk.Region().Contains(top) && lavaPos.y + 1 >= lavaLevel
        invariant forall q :: q in chunk.blocks ==>
          chunk.blocks[q] == if Column(chunk.origin.Add(q)) == Column(top) && lavaPos.y < chunk.origin.Add(q).y <= top.y
                             then Lava else before[q]
        decreases lavaPos.y - lavaLevel
      {
        RelOf(chunk, lavaPos);
        chunk.SetBlock(lavaPos, Lava);
        lavaPos := Vec3(lavaPos.x, lavaPos.y - 1, lavaPos.z);
      }
    }

    /** The stilts: from the top level down while the centre is in the chunk
        and not below the lava level, the four corners of each level. */
    method PlaceStilts(chunk: Chunk, pl: Plan, lavaLevel: int)
      requires chunk.Valid() && random.Valid()
      modifies chunk, random
      ensures chunk.Valid()
      ensures chunk.blocks == Stilts(old(chunk.blocks), chunk, pl, random.stream, old(random.used), StiltBottom(chunk.Region(), pl, lavaLevel))
      ensures random.used == old(random.used) + StiltDraws(pl, StiltBottom(chunk.Region(), pl, lavaLevel))
    {
      ghost var before := chunk.blocks;
      ghost var lo := random.used;
      ghost var region := chunk.Region();
      ghost var top := Vec3(pl.p1.x, pl.stiltTop, pl.p1.z);
      var stiltsCenter := Vec3(pl.p1.x, pl.stiltTop, pl.p1.z);
      ghost var above := pl.stiltTop + 1;
      while chunk.Region().Contains(stiltsCenter) && stiltsCenter.y >= lavaLevel
        invariant chunk.Valid()
        invariant stiltsCenter == Vec3(pl.p1.x, stiltsCenter.y, pl.p1.z) && stiltsCenter.y <= pl.stiltTop
        invariant above == stiltsCenter.y + 1
        invariant stiltsCenter.y < pl.stiltTop ==>
          region.Contains(top) && pl.stiltTop >= lavaLevel && above >= region.min.y && above >= lavaLevel
        invariant StiltState(chunk.blocks, before, chunk, pl, random.stream, lo, above, random.used)
        decreases stiltsCenter.y - lavaLevel
      {
        StiltLevel(chunk, pl, before, lo, stiltsCenter);
        above := stiltsCenter.y;
        stiltsCenter := Vec3(stiltsCenter.x, stiltsCenter.y - 1, stiltsCenter.z);
      }
      StiltExit(region, pl, lavaLevel, stiltsCenter);
    }

    /** One stilt level: the four corners, small bricks from the hut's floor up, `placeWithProbability` below. */
    method StiltLevel(chunk: Chunk, pl: Plan, ghost before: map<Vec3, Block>, ghost lo: nat, stiltsCenter: Vec3)
      requires chunk.Valid() && random.Valid()
      requires stiltsCenter == Vec3(pl.p1.x, stiltsCenter.y, pl.p1.z) && stiltsCenter.y <= pl.stiltTop
      requires StiltState(chunk.blocks, before, chunk, pl, random.stream, lo, stiltsCenter.y + 1, random.used)
      modifies chunk, random
      ensures chunk.Valid()
      ensures StiltState(chunk.blocks, before, chunk, pl, random.stream, lo, stiltsCenter.y, random.used)
    {
      if stiltsCenter.y >= pl.p2.y {
        SmallLevel(chunk, pl, before, lo, stiltsCenter);
      } else {
        LowerLevel(chunk, pl, before, lo, stiltsCenter);
      }
    }

    /** A stilt level from the hut's floor up: four small bricks. */
    method SmallLevel(chunk: Chunk, pl: Plan, ghost before: map<Vec3, Block>, ghost lo: nat, stiltsCenter: Vec3)
      requires chunk.Valid() && random.Valid()
      requires stiltsCenter == Vec3(pl.p1.x, stiltsCenter.y, pl.p1.z) && pl.p2.y <= stiltsCenter.y <= pl.stiltTop
      requires StiltState(chunk.blocks, before, chunk, pl, random.stream, lo, stiltsCenter.y + 1, random.used)
      modifies chunk
      ensures chunk.Valid()
      ensures StiltState(chunk.blocks, before, chunk, pl, random.stream, lo, stiltsCenter.y, random.used)
    {
      var y := stiltsCenter.y;
      var d := pl.toInner;
      ghost var blocks := chunk.blocks;
      SmallCorner(chunk, pl, blocks, lo, y, 0, Vec3(stiltsCenter.x + d, y, stiltsCenter.z + d));
      SmallCorner(chunk, pl, blocks, lo, y, 1, Vec3(stiltsCenter.x - d, y, stiltsCenter.z + d));
      SmallCorner(chunk, pl, blocks, lo, y, 2, Vec3(stiltsCenter.x + d, y, stiltsCenter.z - d));
      SmallCorner(chunk, pl, blocks, lo, y, 3, Vec3(stiltsCenter.x - d, y, stiltsCenter.z - d));
      SmallLevelStep(blocks, chunk.blocks, before, chunk, pl, random.stream, lo, y, random.used);
    }

    /** A stilt level below the hut's floor: four `placeWithProbability` picks, a draw each. */
    method LowerLevel(chunk: Chunk, pl: Plan, ghost before: map<Vec3, Block>, ghost lo: nat, stiltsCenter: Vec3)
      requires chunk.Valid() && random.Valid()
      requires stiltsCenter == Vec3(pl.p1.x, stiltsCenter.y, pl.p1.z) && stiltsCenter.y <= pl.stiltTop && stiltsCenter.y < pl.p2.y
      requires StiltState(chunk.blocks, before, chunk, pl, random.stream, lo, stiltsCenter.y + 1, random.used)
      modifies chunk, random
      ensures chunk.Valid()
      ensures StiltState(chunk.blocks, before, chunk, pl, random.stream, lo, stiltsCenter.y, random.used)
    {
      var y := stiltsCenter.y;
      var d := pl.toInner;
      ghost var u := random.used;
      ghost var blocks := chunk.blocks;
      LowerCorner(chunk, pl, blocks, lo, y, 0, Vec3(stiltsCenter.x + d, y, stiltsCenter.z + d));
      LowerCorner(chunk, pl, blocks, lo, y, 1, Vec3(stiltsCenter.x - d, y, stiltsCenter.z + d));
      LowerCorner(chunk, pl, blocks, lo, y, 2, Vec3(stiltsCenter.x + d, y, stiltsCenter.z - d));
      LowerCorner(chunk, pl, blocks, lo, y, 3, Vec3(stiltsCenter.x - d, y, stiltsCenter.z - d));
      LowerLevelStep(blocks, chunk.blocks, before, chunk, pl, random.stream, lo, y, u);
    }

    /** A small brick at corner `k` of stilt level `y`. */
    method SmallCorner(chunk: Chunk, pl: Plan, ghost blocks: map<Vec3, Block>, ghost lo: nat, y: int, k: nat, pos: Vec3)
      requires chunk.Valid() && k < 4 && y >= pl.p2.y && pos == Corner(pl, y, k)
      requires blocks.Keys == Cells(chunk.RelBox()) && chunk.blocks == Corners(blocks, chunk, pl, random.stream, lo, y, k)
      modifies chunk
      ensures chunk.Valid()
      ensures chunk.blocks == Corners(blocks, chunk, pl, random.stream, lo, y, k + 1)
    {
      chunk.SetBlock(pos, BasaltBricksSmall);
    }

    /** `placeWithProbability(cracked, tiles, 0.1)` at corner `k` of stilt level `y`, with that corner's draw. */
    method LowerCorner(chunk: Chunk, pl: Plan, ghost blocks: map<Vec3, Block>, ghost lo: nat, y: int, k: nat, pos: Vec3)
      requires chunk.Valid() && random.Valid() && k < 4 && y < pl.p2.y && pos == Corner(pl, y, k)
      requires blocks.Keys == Cells(chunk.RelBox()) && chunk.blocks == Corners(blocks, chunk, pl, random.stream, lo, y, k)
      requires random.used == StiltDraw(pl, lo, y, k)
      modifies chunk, random
      ensures chunk.Valid() && random.used == old(random.used) + 1
      ensures chunk.blocks == Corners(blocks, chunk, pl, random.stream, lo, y, k + 1)
    {
      PlaceWithProbability(chunk, pos, BasaltCracked, BasaltTilesLarge, LowerCrackedBlockProb);
    }
  }
}
