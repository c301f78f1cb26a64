/** `InfernoClientSystem`: the search for a spawn point in the Inferno after a
    resurrection, and the per-frame drain of the queued teleports. */
module InfernoClientSystem {
  import opened Geometry
  import opened Facets
  import opened Options

  /** `INFERNO_DEPTH`, which the client system takes from `InfernoZonePlugin` (it is declared in
      `InfernoWorldGenerator`): how far below the surface world the Inferno lies. */
  const InfernoDepth: int := 100000

  /** The search radius, per axis. */
  const SearchRadiusX: int := 32
  const SearchRadiusY: int := 1
  const SearchRadiusZ: int := 32

  /** A float position (`Vector3f`). */
  datatype Vec3f = Vec3f(x: real, y: real, z: real)

  /** The block box the search asks the world generator for: the block at
      (floor x, -INFERNO_DEPTH, floor z) grown by (32, 1, 32). */
  function SearchArea(currentPos: Vec3f): (b: Box)
    ensures forall p :: b.Contains(p) <==>
      && Floor(currentPos.x) - SearchRadiusX <= p.x <= Floor(currentPos.x) + SearchRadiusX
      && -InfernoDepth - SearchRadiusY <= p.y <= -InfernoDepth + SearchRadiusY
      && Floor(currentPos.z) - SearchRadiusZ <= p.z <= Floor(currentPos.z) + SearchRadiusZ
  {
    Point(Vec3(Floor(currentPos.x), -InfernoDepth, Floor(currentPos.z))).Expand(SearchRadiusX, SearchRadiusY, SearchRadiusZ)
  }

  // ---------------------------------------------------------------------------
  // The order in which a `BlockArea` yields its columns: x fastest, then z.

  /** Columns per row of an area. */
  function Width(a: Area): int { a.max.x - a.min.x + 1 }

  /** How many columns an area yields; none when it is empty. */
  function Count(a: Area): (n: nat)
    ensures n > 0 ==> Width(a) > 0
  {
    if Width(a) > 0 && a.max.y - a.min.y + 1 > 0 then
      MulNonNeg(Width(a), a.max.y - a.min.y + 1);
      Width(a) * (a.max.y - a.min.y + 1)
    else 0
  }

  /** The `i`-th column the area yields. */
  function AreaAt(a: Area, i: nat): Vec2
    requires Width(a) > 0
  {
    Vec2(a.min.x + i % Width(a), a.min.y + i / Width(a))
  }

  /** Dividing `row * w + col` by `w` gives back the row and the column. */
  lemma RowCol(row: int, col: int, w: int)
    requires w > 0 && 0 <= col < w
    ensures (row * w + col) / w == row && (row * w + col) % w == col
  {
    var i := row * w + col;
    var q := i / w;
    var m := i % w;
    assert i == q * w + m;
    assert (q - row) * w == col - m;
    MulBound(q - row, w);
  }

  /** Every column the area yields lies in the area. */
  lemma AreaAtIn(a: Area, i: nat)
    requires i < Count(a)
    ensures a.Contains(AreaAt(a, i))
  {
    var w := Width(a);
    var h := a.max.y - a.min.y + 1;
    var q := i / w;
    assert i == q * w + i % w;
    assert (h - q) * w == h * w - q * w;
    MulBound(h - q, w);
    MulBound(q, w);
  }

  /** Every column of the area is yielded, at index (z - min z) * width + (x - min x). */
  lemma AreaAtCovers(a: Area, c: Vec2)
    requires a.Contains(c)
    ensures Count(a) > 0
    ensures var i := (c.y - a.min.y) * Width(a) + (c.x - a.min.x);
      0 <= i < Count(a) && AreaAt(a, i) == c
  {
    var w := Width(a);
    var h := a.max.y - a.min.y + 1;
    var row := c.y - a.min.y;
    var col := c.x - a.min.x;
    RowCol(row, col, w);
    MulNonNeg(row, w);
    MulNonNeg(h - 1 - row, w);
    assert (h - 1 - row) * w == h * w - w - row * w;
  }

  // ---------------------------------------------------------------------------
  // The spawn search.

  /** What `world.getWorldData(searchArea)` hands back: the two height facets
      when they were generated, and the lava level facet. */
  datatype WorldData = WorldData(surface: Option<SurfaceFacet>, ceiling: Option<Field2<real>>, lava: LavaLevelFacet)

  /** When both height facets are there, they are well formed and the ceiling
      facet covers every column of the surface facet's area (`getWorld`
      outside a facet's area throws). */
  ghost predicate Readable(data: WorldData)
    reads if data.surface.Some? then {data.surface.value} else {}
    reads if data.ceiling.Some? then {data.ceiling.value} else {}
  {
    data.surface.Some? && data.ceiling.Some? ==>
      && data.surface.value.Valid() && data.ceiling.value.Valid()
      && forall c :: data.surface.value.WorldArea().Contains(c) ==> data.ceiling.value.WorldArea().Contains(c)
  }

  /** A column one can stand on: its surface is more than one block below the
      ceiling and above the lava level. */
  ghost predicate Qualifies(surface: SurfaceFacet, ceiling: Field2<real>, lavaLevel: int, c: Vec2)
    reads surface, ceiling
  {
    && c in surface.heights && c in ceiling.values
    && surface.heights[c] < ceiling.values[c] - 1.0
    && surface.heights[c] > lavaLevel as real
  }

  /** No column of the surface facet's area qualifies. */
  ghost predicate NoSpawn(surface: SurfaceFacet, ceiling: Field2<real>, lavaLevel: int)
    reads surface, ceiling
  {
    forall c :: surface.WorldArea().Contains(c) ==> !Qualifies(surface, ceiling, lavaLevel, c)
  }

  /** `p` stands one block above the `i`-th column of the surface facet's
      area, the first column in the area's order that qualifies; so it lies
      strictly between that column's surface and its ceiling, and more than a
      block above the lava level. */
  ghost predicate FirstSpawn(surface: SurfaceFacet, ceiling: Field2<real>, lavaLevel: int, i: int, p: Vec3f)
    reads surface, ceiling
  {
    && 0 <= i < Count(surface.WorldArea())
    && var c := AreaAt(surface.WorldArea(), i);
    && Qualifies(surface, ceiling, lavaLevel, c)
    && (forall j :: 0 <= j < i ==> !Qualifies(surface, ceiling, lavaLevel, AreaAt(surface.WorldArea(), j)))
    && p == Vec3f(c.x as real, surface.heights[c] + 1.0, c.y as real)
    && surface.heights[c] < p.y < ceiling.values[c]
    && p.y > lavaLevel as real + 1.0
  }

  /** `p` is the spawn point of the first column that qualifies. */
  ghost predicate Spawns(surface: SurfaceFacet, ceiling: Field2<real>, lavaLevel: int, p: Vec3f)
    reads surface, ceiling
  {
    exists i :: FirstSpawn(surface, ceiling, lavaLevel, i, p)
  }

  /** The search stopping at the `i`-th column: a first spawn, so not "no spawn". */
  lemma SpawnFound(surface: SurfaceFacet, ceiling: Field2<real>, lavaLevel: int, i: nat)
    requires i < Count(surface.WorldArea())
    requires Qualifies(surface, ceiling, lavaLevel, AreaAt(surface.WorldArea(), i))
    requires forall j :: 0 <= j < i ==> !Qualifies(surface, ceiling, lavaLevel, AreaAt(surface.WorldArea(), j))
    ensures var c := AreaAt(surface.WorldArea(), i);
      FirstSpawn(surface, ceiling, lavaLevel, i, Vec3f(c.x as real, surface.heights[c] + 1.0, c.y as real))
    ensures !NoSpawn(surface, ceiling, lavaLevel)
  {
    AreaAtIn(surface.WorldArea(), i);
  }

  /** The search running through all columns: none qualifies. */
  lemma SpawnMissing(surface: SurfaceFacet, ceiling: Field2<real>, lavaLevel: int)
    requires forall j :: 0 <= j < Count(surface.WorldArea()) ==> !Qualifies(surface, ceiling, lavaLevel, AreaAt(surface.WorldArea(), j))
    ensures NoSpawn(surface, ceiling, lavaLevel)
  {
    forall c | surface.WorldArea().Contains(c)
      ensures !Qualifies(surface, ceiling, lavaLevel, c)
    {
      AreaAtCovers(surface.WorldArea(), c);
    }
  }

  /** The search loop over the surface facet's area, reading the ceiling facet
      at the same columns: the first column that qualifies, in the area's
      order, with the spawn point one block above its surface; nothing when
      none does. */
  method Search(surface: SurfaceFacet, ceiling: Field2<real>, lavaLevel: int) returns (r: Option<Vec3f>, ghost at: int)
    requires surface.Valid() && ceiling.Valid()
    requires forall c :: surface.WorldArea().Contains(c) ==> ceiling.WorldArea().Contains(c)
    ensures r.None? <==> NoSpawn(surface, ceiling, lavaLevel)
    ensures r.Some? ==> FirstSpawn(surface, ceiling, lavaLevel, at, r.value) && Spawns(surface, ceiling, lavaLevel, r.value)
  {
    at := 0;
    var area := surface.WorldArea();
    var n := Count(area);
    var i := 0;
    while i < n
      invariant 0 <= i <= n
      invariant forall j :: 0 <= j < i ==> !Qualifies(surface, ceiling, lavaLevel, AreaAt(area, j))
    {
      var pos := AreaAt(area, i);
      AreaAtIn(area, i);
      assert ceiling.WorldArea().Contains(pos);
      var surfaceHeight := surface.heights[pos];
      if surfaceHeight < ceiling.values[pos] - 1.0 && surfaceHeight > lavaLevel as real {
        SpawnFound(surface, ceiling, lavaLevel, i);
        return Some(Vec3f(pos.x as real, surfaceHeight + 1.0, pos.y as real)), i;
      }
      i := i + 1;
    }
    SpawnMissing(surface, ceiling, lavaLevel);
    return None, 0;
  }

  /** The facets `world.getWorldData(box)` hands back were generated for `box`. */
  predicate GeneratedFor(data: WorldData, box: Box) {
    && (data.surface.Some? ==> data.surface.value.target == box)
    && (data.ceiling.Some? ==> data.ceiling.value.target == box)
    && data.lava.target == box
  }

  /** `findInfernoSpawn(currentPos)`, given the world data of its search box:
      with both height facets there, the first column, in the area's order,
      one can stand on, at one block above its surface; nothing when no column
      of the area qualifies or a height facet is missing. */
  method FindInfernoSpawn(currentPos: Vec3f, data: WorldData) returns (r: Option<Vec3f>)
    requires GeneratedFor(data, SearchArea(currentPos)) && Readable(data)
    ensures data.surface.None? || data.ceiling.None? ==> r.None?
    ensures data.surface.Some? && data.ceiling.Some? ==>
      && (r.None? <==> NoSpawn(data.surface.value, data.ceiling.value, data.lava.lavaLevel))
      && (r.Some? ==> Spawns(data.surface.value, data.ceiling.value, data.lava.lavaLevel, r.value))
  {
    if data.surface.Some? && data.ceiling.Some? {
      ghost var at;
      r, at := Search(data.surface.value, data.ceiling.value, data.lava.lavaLevel);
    } else {
      r := None;
    }
  }

  // ---------------------------------------------------------------------------
  // The teleport queue.

  /** A character entity. */
  datatype EntityRef = EntityRef(id: nat)

  /** A `CharacterTeleportEvent` sent to a character. */
  datatype Teleport = Teleport(character: EntityRef, target: Vec3f)

  /** The queue the teleports `sent` empty, read back as a map. */
  function QueueOf(sent: seq<Teleport>): map<EntityRef, Vec3f>
  {
    if sent == [] then map[] else QueueOf(sent[..|sent| - 1])[sent[|sent| - 1].character := sent[|sent| - 1].target]
  }

  /** `sent` holds one teleport per entry of `queue`, to the queued target, and no other. */
  ghost predicate Drains(sent: seq<Teleport>, queue: map<EntityRef, Vec3f>) {
    && (forall i :: 0 <= i < |sent| ==> sent[i].character in queue && queue[sent[i].character] == sent[i].target)
    && (forall i, j :: 0 <= i < j < |sent| ==> sent[i].character != sent[j].character)
    && (forall e :: e in queue ==> exists i :: 0 <= i < |sent| && sent[i].character == e)
  }

  /** One more teleport, for an entry not yet drained. */
  lemma DrainsSnoc(sent: seq<Teleport>, queue: map<EntityRef, Vec3f>, left: set<EntityRef>, e: EntityRef)
    requires left <= queue.Keys && e in left
    requires Drains(sent, queue - left)
    ensures Drains(sent + [Teleport(e, queue[e])], queue - (left - {e}))
  {
    var s := sent + [Teleport(e, queue[e])];
    forall i | 0 <= i < |sent|
      ensures sent[i].character != e
    {
      assert sent[i].character in queue - left;
    }
    forall d | d in queue - (left - {e})
      ensures exists i :: 0 <= i < |s| && s[i].character == d
    {
      if d == e {
        assert s[|sent|].character == d;
      } else {
        assert d in queue - left;
        var i :| 0 <= i < |sent| && sent[i].character == d;
        assert s[i].character == d;
      }
    }
  }

  /** Taking an entry out of a map and putting it back gives the map again. */
  lemma PutBack<K, V>(m: map<K, V>, k: K)
    requires k in m
    ensures (m - {k})[k := m[k]] == m
    ensures |m - {k}| == |m| - 1
  {
    assert (m - {k}).Keys == m.Keys - {k};
  }

  /** Without its last teleport, `sent` drains the queue without that teleport's character. */
  lemma DrainsFront(sent: seq<Teleport>, queue: map<EntityRef, Vec3f>)
    requires Drains(sent, queue) && sent != []
    ensures Drains(sent[..|sent| - 1], queue - {sent[|sent| - 1].character})
  {
    var last := sent[|sent| - 1];
    var front := sent[..|sent| - 1];
    var rest := queue - {last.character};
    forall e | e in rest
      ensures exists i :: 0 <= i < |front| && front[i].character == e
    {
      var i :| 0 <= i < |sent| && sent[i].character == e;
      assert front[i].character == e;
    }
    forall i | 0 <= i < |front|
      ensures front[i].character in rest && rest[front[i].character] == front[i].target
    {
      assert sent[i].character != sent[|sent| - 1].character;
    }
  }

  /** The teleports that drain a queue are exactly its entries, one each. */
  lemma {:induction false} DrainsExactly(sent: seq<Teleport>, queue: map<EntityRef, Vec3f>)
    requires Drains(sent, queue)
    ensures QueueOf(sent) == queue
    ensures |sent| == |queue|
    decreases |sent|
  {
    if sent == [] {
      assert queue.Keys == {};
    } else {
      var last := sent[|sent| - 1];
      DrainsFront(sent, queue);
      DrainsExactly(sent[..|sent| - 1], queue - {last.character});
      PutBack(queue, last.character);
    }
  }

  /** The client system's teleport queue: character to target position. */
  class ClientSystem {
    var teleportQueue: map<EntityRef, Vec3f>

    constructor ()
      ensures teleportQueue == map[]
    {
      teleportQueue := map[];
    }

    /** `teleportQueue.put(character, spawnPos)`, as a resurrection queues it. */
    method QueueTeleport(character: EntityRef, spawnPos: Vec3f)
      modifies this
      ensures teleportQueue == old(teleportQueue)[character := spawnPos]
    {
      teleportQueue := teleportQueue[character := spawnPos];
    }

    /** `update`: sends every queued character its teleport, once, removing
        each entry as it goes; the queue ends empty. */
    method Update() returns (sent: seq<Teleport>)
      modifies this
      ensures teleportQueue == map[]
      ensures Drains(sent, old(teleportQueue))
    {
      sent := [];
      ghost var queue := teleportQueue;
      if teleportQueue != map[] {
        while teleportQueue != map[]
          invariant teleportQueue.Keys <= queue.Keys
          invariant forall e :: e in teleportQueue ==> teleportQueue[e] == queue[e]
          invariant Drains(sent, queue - teleportQueue.Keys)
          decreases |teleportQueue|
        {
          var character :| character in teleportQueue;
          var targetPos := teleportQueue[character];
          DrainsSnoc(sent, queue, teleportQueue.Keys, character);
          sent := sent + [Teleport(character, targetPos)];
          assert (teleportQueue - {character}).Keys == teleportQueue.Keys - {character};
          teleportQueue := teleportQueue - {character};
        }
      }
      assert queue - {} == queue;
    }
  }
}
