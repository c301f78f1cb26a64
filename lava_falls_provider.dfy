/** `LavaFallsProvider`: a column whose spawn noise exceeds 0.9995 starts a
    lava-fall cluster of up to four columns (itself and its +x, +x+z and +z
    neighbours), each kept when its own size noise is positive and it lies in
    the facet's world area. The border is grown by 4 blocks on every side. */
module LavaFallsProvider {
  import opened Geometry
  import opened Facets

  const SpawnThreshold: real := 0.9995

  /** The five white-noise functions the provider draws from. */
  datatype FallNoise = FallNoise(spawn: Noise2, size1: Noise2, size2: Noise2, size3: Noise2, size4: Noise2)

  /** The offset of cluster member `k` from the column that starts the cluster. */
  function Offset(k: int): Vec2
    requires 0 <= k < 4
  {
    [Vec2(0, 0), Vec2(1, 0), Vec2(1, 1), Vec2(0, 1)][k]
  }

  /** The size noise that decides cluster member `k`. */
  function SizeNoise(n: FallNoise, k: int): Noise2
    requires 0 <= k < 4
  {
    [n.size1, n.size2, n.size3, n.size4][k]
  }

  function Sub2(a: Vec2, b: Vec2): Vec2 { Vec2(a.x - b.x, a.y - b.y) }

  /** Column `q` is member `k` of a cluster started by a column of `starts`. */
  predicate MemberOf(starts: set<Vec2>, n: FallNoise, k: int, q: Vec2)
    requires 0 <= k < 4
  {
    var c := Sub2(q, Offset(k));
    c in starts && At2(n.spawn, c) > SpawnThreshold && At2(SizeNoise(n, k), c) > 0.0
  }

  /** Column `q` is a lava fall when it lies in the area and is some member of
      a cluster started by a column of `starts`. */
  predicate LavaFall(area: Area, starts: set<Vec2>, n: FallNoise, q: Vec2) {
    area.Contains(q) && (MemberOf(starts, n, 0, q) || MemberOf(starts, n, 1, q) || MemberOf(starts, n, 2, q) || MemberOf(starts, n, 3, q))
  }

  class LavaFallsProvider {
    const noise: FallNoise

    constructor (n: FallNoise)
      ensures noise == n
    {
      noise := n;
    }

    /** `process`: a column of the world area is marked exactly when it is a
        member of a cluster started inside the world area. Nothing is ever
        unmarked, so the result does not depend on the order the columns are
        visited in. */
    method Process(target: Box, border: Border) returns (facet: Field2<bool>)
      ensures fresh(facet) && facet.Valid()
      ensures facet.target == target && facet.border == border.ExtendBy(4, 4, 4)
      ensures forall q :: q in facet.values ==>
        (facet.values[q] <==> LavaFall(facet.WorldArea(), Columns(facet.WorldArea()), noise, q))
    {
      facet := new Field2<bool>(target, border.ExtendBy(4, 4, 4), false);
      var todo := Columns(facet.WorldArea());
      ghost var done: set<Vec2> := {};
      while todo != {}
        invariant facet.Valid() && done + todo == Columns(facet.WorldArea())
        invariant forall q :: q in facet.values ==> (facet.values[q] <==> LavaFall(facet.WorldArea(), done, noise, q))
        decreases |todo|
      {
        var c :| c in todo;
        VisitColumn(facet, done, c);
        todo := todo - {c};
        done := done + {c};
      }
    }

    /** The loop body for column `c`: afterwards the facet marks the clusters
        started in `done` and at `c`. */
    method VisitColumn(facet: Field2<bool>, ghost done: set<Vec2>, c: Vec2)
      requires facet.Valid()
      requires forall q :: q in facet.values ==> (facet.values[q] <==> LavaFall(facet.WorldArea(), done, noise, q))
      modifies facet
      ensures facet.Valid()
      ensures forall q :: q in facet.values ==> (facet.values[q] <==> LavaFall(facet.WorldArea(), done + {c}, noise, q))
    {
      if At2(noise.spawn, c) > SpawnThreshold {
        MarkMember(facet, c, 0);
        MarkMember(facet, c, 1);
        MarkMember(facet, c, 2);
        MarkMember(facet, c, 3);
      }
      forall q | q in facet.values
        ensures facet.values[q] <==> LavaFall(facet.WorldArea(), done + {c}, noise, q)
      {
        LavaFallAdd(facet.WorldArea(), done, c, noise, q);
      }
    }

    /** One of the four guarded writes: when member `k`'s size noise is
        positive and member `k` lies in the world area, mark it. */
    method MarkMember(facet: Field2<bool>, c: Vec2, k: int)
      requires facet.Valid() && 0 <= k < 4
      requires At2(noise.spawn, c) > SpawnThreshold
      modifies facet
      ensures facet.Valid()
      ensures forall q :: q in facet.values ==>
        (facet.values[q] <==> old(facet.values[q]) || (facet.WorldArea().Contains(q) && MemberOf({c}, noise, k, q)))
    {
      var q := Vec2(c.x + Offset(k).x, c.y + Offset(k).y);
      assert Sub2(q, Offset(k)) == c;
      if At2(SizeNoise(noise, k), c) > 0.0 && facet.WorldArea().Contains(q) {
        facet.SetWorld(q, true);
      }
    }
  }

  /** Adding one starting column adds exactly its own cluster members. */
  lemma LavaFallAdd(area: Area, done: set<Vec2>, c: Vec2, n: FallNoise, q: Vec2)
    ensures LavaFall(area, done + {c}, n, q) <==>
      LavaFall(area, done, n, q) || (area.Contains(q) &&
        (MemberOf({c}, n, 0, q) || MemberOf({c}, n, 1, q) || MemberOf({c}, n, 2, q) || MemberOf({c}, n, 3, q)))
  {
  }

  /** Every lava fall lies within one block (in +x and +z) of a column whose
      spawn noise exceeds the threshold, and is decided by that column's size noise. */
  lemma {:induction false} FallNearSpawn(area: Area, starts: set<Vec2>, n: FallNoise, q: Vec2)
    requires LavaFall(area, starts, n, q)
    ensures exists c :: (c in starts && At2(n.spawn, c) > SpawnThreshold &&
      (q == c || q == Vec2(c.x + 1, c.y) || q == Vec2(c.x + 1, c.y + 1) || q == Vec2(c.x, c.y + 1)))
  {
    if MemberOf(starts, n, 0, q) {
      var c := Sub2(q, Offset(0));
      assert q == c;
    } else if MemberOf(starts, n, 1, q) {
      var c := Sub2(q, Offset(1));
      assert q == Vec2(c.x + 1, c.y);
    } else if MemberOf(starts, n, 2, q) {
      var c := Sub2(q, Offset(2));
      assert q == Vec2(c.x + 1, c.y + 1);
    } else {
      var c := Sub2(q, Offset(3));
      assert q == Vec2(c.x, c.y + 1);
    }
  }

  /** A starting column whose first size noise is positive is itself a lava fall. */
  lemma StartIsFall(area: Area, n: FallNoise, c: Vec2)
    requires area.Contains(c) && At2(n.spawn, c) > SpawnThreshold && At2(n.size1, c) > 0.0
    ensures LavaFall(area, Columns(area), n, c)
  {
    assert Sub2(c, Offset(0)) == c;
  }

  /** No column is a lava fall when no column of `starts` passes the spawn threshold. */
  lemma {:induction false} NoSpawnNoFalls(area: Area, starts: set<Vec2>, n: FallNoise, q: Vec2)
    requires forall c :: c in starts ==> At2(n.spawn, c) <= SpawnThreshold
    ensures !LavaFall(area, starts, n, q)
  {
    if LavaFall(area, starts, n, q) {
      FallNearSpawn(area, starts, n, q);
    }
  }
}
