/** `InfernoFloraRasterizer`: puts a randomly drawn plant on every voxel the
    flora facet flags, provided the block below it is not air. The plant is
    drawn by a cumulative weighted choice over an insertion-ordered map of
    blocks to weights (flaming flower 0.45, devil shroom 0.45, dead branch 0.1). */
module InfernoFloraRasterizer {
  import opened Geometry
  import opened Options
  import opened Chunks
  import opened Randomness

  /** One entry of the `flora` map, in insertion order. */
  datatype Weighted = Weighted(block: Block, weight: real)

  /** The map `initialize` builds. */
  const DefaultFlora: seq<Weighted> := [Weighted(FlamingFlower, 0.45), Weighted(DevilShroom, 0.45), Weighted(DeadBranch, 0.1)]

  /** The sum of the first `n` weights: `cumulativeProbability` after `n` entries. */
  function Prefix(entries: seq<Weighted>, n: nat): real
    requires n <= |entries|
  {
    if n == 0 then 0.0 else Prefix(entries, n - 1) + entries[n - 1].weight
  }

  /** The cumulative weight through entry `j`. */
  function Cum(entries: seq<Weighted>, j: nat): real
    requires j < |entries|
  {
    Prefix(entries, j + 1)
  }

  /** The index of the first entry, from `k` on, whose cumulative weight reaches
      `rand`; `|entries|` when there is none. */
  function FirstFrom(entries: seq<Weighted>, rand: real, k: nat): (i: nat)
    requires k <= |entries|
    ensures k <= i <= |entries|
    ensures i < |entries| ==> rand <= Cum(entries, i)
    ensures forall j :: k <= j < i ==> Cum(entries, j) < rand
    decreases |entries| - k
  {
    if k == |entries| then k
    else if rand <= Cum(entries, k) then k
    else FirstFrom(entries, rand, k + 1)
  }

  /** The index `getRandomFlora` selects for the draw `rand`. */
  function PickIndex(entries: seq<Weighted>, rand: real): (i: nat)
    ensures i <= |entries|
    ensures i < |entries| ==> rand <= Cum(entries, i)
    ensures forall j :: 0 <= j < i ==> Cum(entries, j) < rand
  {
    FirstFrom(entries, rand, 0)
  }

  /** `getRandomFlora()` for the draw `rand`: the block of the first entry whose
      cumulative weight reaches the draw, or none (`null`). */
  function Pick(entries: seq<Weighted>, rand: real): (b: Option<Block>)
    ensures b == None <==> forall j :: 0 <= j < |entries| ==> Cum(entries, j) < rand
    ensures b.Some? ==> exists i :: 0 <= i < |entries| && b.value == entries[i].block
  {
    var i := PickIndex(entries, rand);
    if i < |entries| then Some(entries[i].block) else None
  }

  /** With non-negative weights the cumulative weights never fall. */
  lemma {:induction false} PrefixMonotone(entries: seq<Weighted>, m: nat, n: nat)
    requires m <= n <= |entries|
    requires forall e :: e in entries ==> e.weight >= 0.0
    ensures Prefix(entries, m) <= Prefix(entries, n)
    decreases n - m
  {
    if m < n {
      PrefixMonotone(entries, m, n - 1);
      assert entries[n - 1] in entries;
    }
  }

  /** With non-negative weights, the draw finds nothing exactly when it exceeds the total weight. */
  lemma NoneOnlyAboveTotal(entries: seq<Weighted>, rand: real)
    requires |entries| > 0
    requires forall e :: e in entries ==> e.weight >= 0.0
    ensures Pick(entries, rand) == None <==> rand > Prefix(entries, |entries|)
  {
    if rand > Prefix(entries, |entries|) {
      forall j | 0 <= j < |entries|
        ensures Cum(entries, j) < rand
      {
        PrefixMonotone(entries, j + 1, |entries|);
      }
    } else {
      assert !(Cum(entries, |entries| - 1) < rand);
    }
  }

  /** A larger draw never selects an earlier entry. */
  lemma PickMonotone(entries: seq<Weighted>, r1: real, r2: real)
    requires r1 <= r2
    ensures PickIndex(entries, r1) <= PickIndex(entries, r2)
  {
  }

  /** With the default weights a draw in [0, 1] always yields a plant: a
      flaming flower up to 0.45, a devil shroom up to 0.9, a dead branch above. */
  lemma DefaultPick(rand: real)
    requires 0.0 <= rand <= 1.0
    ensures rand <= 0.45 ==> Pick(DefaultFlora, rand) == Some(FlamingFlower)
    ensures 0.45 < rand <= 0.9 ==> Pick(DefaultFlora, rand) == Some(DevilShroom)
    ensures 0.9 < rand ==> Pick(DefaultFlora, rand) == Some(DeadBranch)
  {
    assert Prefix(DefaultFlora, 1) == 0.45;
    assert Prefix(DefaultFlora, 2) == 0.9;
    assert Prefix(DefaultFlora, 3) == 1.0;
  }

  /** One of the three plants. */
  predicate IsFlora(b: Block) {
    b == FlamingFlower || b == DevilShroom || b == DeadBranch
  }

  /** The plant drawn by a draw of the stream. */
  function FloraFor(rand: real): (b: Block)
    requires 0.0 <= rand <= 1.0
    ensures IsFlora(b)
  {
    DefaultPick(rand);
    Pick(DefaultFlora, rand).value
  }

  /** `flora.put(block, weight)` on an insertion-ordered map: a new key is
      appended, an existing key keeps its place and takes the new weight. */
  function Put(entries: seq<Weighted>, b: Block, w: real): (r: seq<Weighted>)
    ensures (exists i :: 0 <= i < |entries| && entries[i].block == b) ==> |r| == |entries|
    ensures (forall i :: 0 <= i < |entries| ==> entries[i].block != b) ==> r == entries + [Weighted(b, w)]
    ensures forall i :: 0 <= i < |entries| ==> r[i] == (if entries[i].block == b then Weighted(b, w) else entries[i])
  {
    if exists i :: 0 <= i < |entries| && entries[i].block == b
    then seq(|entries|, i requires 0 <= i < |entries| => if entries[i].block == b then Weighted(b, w) else entries[i])
    else entries + [Weighted(b, w)]
  }

  /** `initialize()` on an empty map builds the default map, and on the
      default map leaves it as it is. */
  lemma InitializeBuildsDefault()
    ensures Put(Put(Put([], FlamingFlower, 0.45), DevilShroom, 0.45), DeadBranch, 0.1) == DefaultFlora
    ensures Put(Put(Put(DefaultFlora, FlamingFlower, 0.45), DevilShroom, 0.45), DeadBranch, 0.1) == DefaultFlora
  {
    var a := Put(DefaultFlora, FlamingFlower, 0.45);
    assert DefaultFlora[0].block == FlamingFlower;
    assert a == DefaultFlora;
    assert DefaultFlora[1].block == DevilShroom;
    assert Put(a, DevilShroom, 0.45) == DefaultFlora;
    assert DefaultFlora[2].block == DeadBranch;
  }

  /** The one-below neighbour of a position. */
  function Below(p: Vec3): Vec3 { Vec3(p.x, p.y - 1, p.z) }

  /** The flora facet flags at most one voxel per column of `region`, as
      `FloraProvider` guarantees. */
  ghost predicate OnePerColumn(flags: map<Vec3, bool>, region: Box) {
    forall p, q {:trigger flags[p], flags[q]} ::
      (region.Contains(p) && region.Contains(q) && p in flags && q in flags && flags[p] && flags[q] && Column(p) == Column(q))
      ==> p == q
  }

  /** The chunk's state part way through `generateChunk`: `drawOf` names the
      positions planted so far and the draw each used. */
  ghost predicate PlantedUpTo(chunk: Chunk, blocks: map<Vec3, Block>, before: map<Vec3, Block>, flags: map<Vec3, bool>,
                              stream: nat -> real, done: set<Vec3>, drawOf: map<Vec3, nat>)
    requires chunk.Shaped()
  {
    && blocks.Keys == before.Keys
    && (forall w :: w in drawOf ==> w in done && w in flags && flags[w] && 0.0 <= stream(drawOf[w]) <= 1.0)
    && (forall q :: q in blocks && chunk.origin.Add(q) in drawOf ==>
          blocks[q] == FloraFor(stream(drawOf[chunk.origin.Add(q)])))
    && (forall q :: q in blocks && chunk.origin.Add(q) !in drawOf ==> blocks[q] == before[q])
  }

  /** With one flagged voxel per column, the planted positions are exactly the
      flagged ones whose block below was not air before the call. */
  ghost predicate PlantedExactly(chunk: Chunk, before: map<Vec3, Block>, flags: map<Vec3, bool>,
                                 done: set<Vec3>, drawOf: map<Vec3, nat>)
    requires chunk.Shaped()
  {
    forall w :: w in done && w in flags && chunk.Rel(Below(w)) in before ==>
      (w in drawOf <==> flags[w] && before[chunk.Rel(Below(w))] != Air)
  }

  /** Visiting a position without planting keeps the state description. */
  lemma SkipStep(chunk: Chunk, blocks: map<Vec3, Block>, before: map<Vec3, Block>, flags: map<Vec3, bool>,
                 stream: nat -> real, done: set<Vec3>, drawOf: map<Vec3, nat>, pos: Vec3)
    requires chunk.Shaped() && PlantedUpTo(chunk, blocks, before, flags, stream, done, drawOf)
    ensures PlantedUpTo(chunk, blocks, before, flags, stream, done + {pos}, drawOf)
  {
  }

  /** Planting at a flagged position of the region with draw `k` keeps the state description. */
  lemma PlantStep(chunk: Chunk, blocks: map<Vec3, Block>, before: map<Vec3, Block>, flags: map<Vec3, bool>,
                  stream: nat -> real, done: set<Vec3>, drawOf: map<Vec3, nat>, pos: Vec3, k: nat)
    requires chunk.Shaped() && PlantedUpTo(chunk, blocks, before, flags, stream, done, drawOf)
    requires chunk.Region().Contains(pos) && pos !in done && pos in flags && flags[pos]
    requires chunk.Rel(pos) in blocks && 0.0 <= stream(k) <= 1.0
    ensures PlantedUpTo(chunk, blocks[chunk.Rel(pos) := FloraFor(stream(k))], before, flags, stream, done + {pos}, drawOf[pos := k])
  {
    RelOf(chunk, pos);
  }

  /** Deciding one more position keeps `PlantedExactly`. */
  lemma ExactStep(chunk: Chunk, before: map<Vec3, Block>, flags: map<Vec3, bool>, done: set<Vec3>,
                  drawOf: map<Vec3, nat>, drawOf': map<Vec3, nat>, pos: Vec3)
    requires chunk.Shaped() && PlantedExactly(chunk, before, flags, done, drawOf)
    requires forall w :: w != pos ==> (w in drawOf' <==> w in drawOf)
    requires pos in flags && chunk.Rel(Below(pos)) in before
    requires pos in drawOf' <==> flags[pos] && before[chunk.Rel(Below(pos))] != Air
    ensures PlantedExactly(chunk, before, flags, done + {pos}, drawOf')
  {
  }

  /** Under one flag per column, the cell below a flagged, unvisited position
      of the region has not been touched yet. */
  lemma BelowUntouched(chunk: Chunk, blocks: map<Vec3, Block>, before: map<Vec3, Block>, flags: map<Vec3, bool>,
                       stream: nat -> real, done: set<Vec3>, drawOf: map<Vec3, nat>, pos: Vec3)
    requires chunk.Shaped() && blocks.Keys == Cells(chunk.RelBox())
    requires chunk.Region().Contains(pos) && pos !in done
    requires PlantedUpTo(chunk, blocks, before, flags, stream, done, drawOf)
    requires OnePerColumn(flags, chunk.Region()) && pos in flags && flags[pos]
    requires forall p :: chunk.Region().Contains(p) ==> p in flags
    ensures chunk.Rel(Below(pos)) in before && blocks[chunk.Rel(Below(pos))] == before[chunk.Rel(Below(pos))]
  {
    var r := chunk.Rel(Below(pos));
    var w := chunk.origin.Add(r);
    RelOf(chunk, pos);
    RelInRegion(chunk);
    assert chunk.Region().Contains(w);
    assert Column(w) == Column(pos);
  }

  /** At the end of the loop, the state description read over the whole region. */
  lemma FinishAll(chunk: Chunk, blocks: map<Vec3, Block>, before: map<Vec3, Block>, flags: map<Vec3, bool>,
                  stream: nat -> real, drawOf: map<Vec3, nat>, exact: bool)
    requires chunk.Shaped() && before.Keys == Cells(chunk.RelBox())
    requires forall p :: chunk.Region().Contains(p) ==> p in flags
    requires PlantedUpTo(chunk, blocks, before, flags, stream, Cells(chunk.Region()), drawOf)
    requires exact == OnePerColumn(flags, chunk.Region())
    requires exact ==> PlantedExactly(chunk, before, flags, Cells(chunk.Region()), drawOf)
    ensures forall p :: p in drawOf ==> chunk.Region().Contains(p) && flags[p] && 0.0 <= stream(drawOf[p]) <= 1.0
    ensures forall p :: chunk.Region().Contains(p) && p in drawOf ==> blocks[chunk.Rel(p)] == FloraFor(stream(drawOf[p]))
    ensures forall p :: chunk.Region().Contains(p) && p !in drawOf ==> blocks[chunk.Rel(p)] == before[chunk.Rel(p)]
    ensures OnePerColumn(flags, chunk.Region()) ==> forall p :: chunk.Region().Contains(p) ==>
      (p in drawOf <==> flags[p] && before[chunk.Rel(Below(p))] != Air)
  {
    forall p | chunk.Region().Contains(p)
      ensures p in drawOf ==> blocks[chunk.Rel(p)] == FloraFor(stream(drawOf[p]))
      ensures p !in drawOf ==> blocks[chunk.Rel(p)] == before[chunk.Rel(p)]
    {
      Finish(chunk, blocks, before, flags, stream, drawOf, p);
    }
  }

  /** At the end of the loop, the state description read by world position. */
  lemma Finish(chunk: Chunk, blocks: map<Vec3, Block>, before: map<Vec3, Block>, flags: map<Vec3, bool>,
               stream: nat -> real, drawOf: map<Vec3, nat>, p: Vec3)
    requires chunk.Shaped() && chunk.Region().Contains(p)
    requires PlantedUpTo(chunk, blocks, before, flags, stream, Cells(chunk.Region()), drawOf)
    requires before.Keys == Cells(chunk.RelBox())
    ensures p in drawOf ==> blocks[chunk.Rel(p)] == FloraFor(stream(drawOf[p]))
    ensures p !in drawOf ==> blocks[chunk.Rel(p)] == before[chunk.Rel(p)]
  {
    RelOf(chunk, p);
  }

  /** Everything the loop of `generateChunk` keeps, in one place. */
  ghost predicate Progress(chunk: Chunk, blocks: map<Vec3, Block>, before: map<Vec3, Block>, flags: map<Vec3, bool>,
                           stream: nat -> real, done: set<Vec3>, drawOf: map<Vec3, nat>, lo: nat, used: nat, exact: bool)
    requires chunk.Shaped()
  {
    && PlantedUpTo(chunk, blocks, before, flags, stream, done, drawOf)
    && (exact ==> PlantedExactly(chunk, before, flags, done, drawOf))
    && OwnDraws(drawOf, lo, used) && lo <= used
  }

  class InfernoFloraRasterizer {
    const random: RandomSource
    var flora: seq<Weighted>

    constructor (random: RandomSource)
      ensures this.random == random && flora == []
    {
      this.random := random;
      flora := [];
    }

    /** `initialize()`: the three plants and their weights, in this order. */
    method Initialize()
      modifies this
      ensures flora == Put(Put(Put(old(flora), FlamingFlower, 0.45), DevilShroom, 0.45), DeadBranch, 0.1)
    {
      flora := Put(flora, FlamingFlower, 0.45);
      flora := Put(flora, DevilShroom, 0.45);
      flora := Put(flora, DeadBranch, 0.1);
    }

    /** `getRandomFlora()`: one draw (`nextDouble(0, 1)`, the next value of the
        stream), then the first entry whose cumulative weight reaches it. */
    method GetRandomFlora() returns (b: Option<Block>)
      requires random.Valid()
      modifies random
      ensures random.used == old(random.used) + 1
      ensures b == Pick(flora, random.stream(old(random.used)))
    {
      var rand := random.NextFloat();
      var cumulativeProbability := 0.0;
      var i := 0;
      while i < |flora|
        invariant 0 <= i <= |flora|
        invariant cumulativeProbability == Prefix(flora, i)
        invariant forall j :: 0 <= j < i ==> Cum(flora, j) < rand
      {
        cumulativeProbability := cumulativeProbability + flora[i].weight;
        if rand <= cumulativeProbability {
          assert rand <= Cum(flora, i);
          return Some(flora[i].block);
        }
        i := i + 1;
      }
      return None;
    }

    /** `generateChunk`: each planted position was flagged and got the plant of
        a draw of its own; all other positions keep their block. With one
        flagged voxel per column (as the flora facet has), the planted
        positions are exactly the flagged ones standing on a block other than
        air. One draw is used per planted position. */
    method GenerateChunk(chunk: Chunk, flags: map<Vec3, bool>) returns (ghost drawOf: map<Vec3, nat>)
      requires chunk.Valid() && random.Valid() && flora == DefaultFlora
      requires forall p :: chunk.Region().Contains(p) ==> p in flags
      modifies chunk, random
      ensures chunk.Valid()
      ensures forall p :: p in drawOf ==> chunk.Region().Contains(p) && flags[p]
      ensures forall p :: chunk.Region().Contains(p) && p in drawOf ==> chunk.At(p) == FloraFor(random.stream(drawOf[p]))
      ensures forall p :: chunk.Region().Contains(p) && p !in drawOf ==> chunk.At(p) == old(chunk.At(p))
      ensures OwnDraws(drawOf, old(random.used), random.used) && random.used == old(random.used) + |drawOf|
      ensures OnePerColumn(flags, chunk.Region()) ==> forall p :: chunk.Region().Contains(p) ==>
        (p in drawOf <==> flags[p] && old(chunk.At(Below(p))) != Air)
    {
      ghost var before := chunk.blocks;
      ghost var lo := random.used;
      ghost var exact := OnePerColumn(flags, chunk.Region());
      drawOf := PlantRegion(chunk, flags, exact);
      FinishAll(chunk, chunk.blocks, before, flags, random.stream, drawOf, exact);
    }

    /** The loop of `generateChunk` over the chunk's region. */
    method PlantRegion(chunk: Chunk, flags: map<Vec3, bool>, ghost exact: bool) returns (ghost drawOf: map<Vec3, nat>)
      requires chunk.Valid() && random.Valid() && flora == DefaultFlora
      requires forall p :: chunk.Region().Contains(p) ==> p in flags
      requires exact ==> OnePerColumn(flags, chunk.Region())
      modifies chunk, random
      ensures chunk.Valid() && random.Valid()
      ensures PlantedUpTo(chunk, chunk.blocks, old(chunk.blocks), flags, random.stream, Cells(chunk.Region()), drawOf)
      ensures exact ==> PlantedExactly(chunk, old(chunk.blocks), flags, Cells(chunk.Region()), drawOf)
      ensures OwnDraws(drawOf, old(random.used), random.used) && random.used == old(random.used) + |drawOf|
    {
      ghost var before := chunk.blocks;
      ghost var lo := random.used;
      drawOf := map[];
      var todo := Cells(chunk.Region());
      ghost var done: set<Vec3> := {};
      while todo != {}
        invariant chunk.Valid() && random.Valid()
        invariant done + todo == Cells(chunk.Region()) && done !! todo
        invariant Progress(chunk, chunk.blocks, before, flags, random.stream, done, drawOf, lo, random.used, exact)
        invariant random.used == lo + |drawOf|
        decreases |todo|
      {
        todo, done, drawOf := Step(chunk, flags, before, todo, done, drawOf, lo, exact);
      }
    }

    /** One turn of the loop: visit some position not yet visited. */
    method Step(chunk: Chunk, flags: map<Vec3, bool>, ghost before: map<Vec3, Block>, todo: set<Vec3>, ghost done: set<Vec3>,
                ghost drawOf: map<Vec3, nat>, ghost lo: nat, ghost exact: bool)
      returns (todo': set<Vec3>, ghost done': set<Vec3>, ghost drawOf': map<Vec3, nat>)
      requires chunk.Valid() && random.Valid() && flora == DefaultFlora && todo != {}
      requires done + todo == Cells(chunk.Region()) && done !! todo
      requires forall p :: chunk.Region().Contains(p) ==> p in flags
      requires exact ==> OnePerColumn(flags, chunk.Region())
      requires Progress(chunk, chunk.blocks, before, flags, random.stream, done, drawOf, lo, random.used, exact)
      modifies chunk, random
      ensures chunk.Valid() && random.Valid()
      ensures done' + todo' == Cells(chunk.Region()) && done' !! todo' && |todo'| < |todo|
      ensures Progress(chunk, chunk.blocks, before, flags, random.stream, done', drawOf', lo, random.used, exact)
      ensures random.used - old(random.used) == |drawOf'| - |drawOf|
    {
      var position :| position in todo;
      TakeOne(Cells(chunk.Region()), done, todo, position);
      todo' := todo - {position};
      done' := done + {position};
      drawOf' := VisitPosition(chunk, flags, before, done, drawOf, lo, exact, position);
    }

    /** The loop body for world position `position`. */
    method VisitPosition(chunk: Chunk, flags: map<Vec3, bool>, ghost before: map<Vec3, Block>, ghost done: set<Vec3>,
                         ghost drawOf: map<Vec3, nat>, ghost lo: nat, ghost exact: bool, position: Vec3)
      returns (ghost drawOf': map<Vec3, nat>)
      requires chunk.Valid() && random.Valid() && flora == DefaultFlora
      requires chunk.Region().Contains(position) && position !in done
      requires forall p :: chunk.Region().Contains(p) ==> p in flags
      requires exact ==> OnePerColumn(flags, chunk.Region())
      requires Progress(chunk, chunk.blocks, before, flags, random.stream, done, drawOf, lo, random.used, exact)
      modifies chunk, random
      ensures chunk.Valid() && random.Valid() && flora == DefaultFlora
      ensures Progress(chunk, chunk.blocks, before, flags, random.stream, done + {position}, drawOf', lo, random.used, exact)
      ensures random.used - old(random.used) == |drawOf'| - |drawOf|
    {
      drawOf' := drawOf;
      var below := chunk.GetBlock(Below(position));
      if exact && flags[position] {
        BelowUntouched(chunk, chunk.blocks, before, flags, random.stream, done, drawOf, position);
      }
      assert chunk.Rel(Below(position)) in before;
      if flags[position] && below != Air {
        ghost var k := random.used;
        var plant := GetRandomFlora();
        DefaultPick(random.stream(k));
        PlantStep(chunk, chunk.blocks, before, flags, random.stream, done, drawOf, position, k);
        DrawAdd(drawOf, lo, k, position);
        chunk.SetBlock(position, plant.value);
        drawOf' := drawOf[position := k];
      } else {
        SkipStep(chunk, chunk.blocks, before, flags, random.stream, done, drawOf, position);
      }
      if exact {
        ExactStep(chunk, before, flags, done, drawOf, drawOf', position);
      }
    }
  }
}
