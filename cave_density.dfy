/** `CaveToDensityProvider`: carves the caves into the density field, in
    place. Every target position flagged as a cave gets density -1; every
    other density is kept, and the cave facet is only read. */
module CaveToDensity {
  import opened Geometry
  import opened Facets

  const CaveDensity: real := -1.0

  /** The density field after carving: cave positions of the target become -1. */
  function Carve(density: map<Vec3, real>, cave: map<Vec3, bool>, target: Box): (r: map<Vec3, real>)
    ensures r.Keys == density.Keys
    ensures forall p :: p in r && target.Contains(p) && p in cave && cave[p] ==> r[p] == CaveDensity
    ensures forall p :: p in r && !(target.Contains(p) && p in cave && cave[p]) ==> r[p] == density[p]
  {
    map p | p in density :: if target.Contains(p) && p in cave && cave[p] then CaveDensity else density[p]
  }

  /** Carving twice gives the same field as carving once. */
  lemma CarveIdempotent(density: map<Vec3, real>, cave: map<Vec3, bool>, target: Box)
    ensures Carve(Carve(density, cave, target), cave, target) == Carve(density, cave, target)
  {
  }

  /** `density` is `before` with the cave positions of `done` carved out. */
  ghost predicate CarvedUpTo(density: map<Vec3, real>, before: map<Vec3, real>, cave: map<Vec3, bool>, done: set<Vec3>) {
    && density.Keys == before.Keys
    && forall p :: p in density ==> density[p] == (if p in done && p in cave && cave[p] then CaveDensity else before[p])
  }

  /** Once every target position is done, the field is the carved one. */
  lemma CarvedAll(density: map<Vec3, real>, before: map<Vec3, real>, cave: map<Vec3, bool>, target: Box)
    requires CarvedUpTo(density, before, cave, Cells(target))
    ensures density == Carve(before, cave, target)
  {
  }

  /** `process` for a density facet and a cave facet of the same target region:
      every target position the cave facet flags gets density -1. */
  method Process(target: Box, cave: Field3<bool>, density: Field3<real>)
    requires cave.Valid() && density.Valid() && cave.target == target && density.target == target
    modifies density
    ensures density.Valid()
    ensures density.values == Carve(old(density.values), cave.values, target)
  {
    ghost var before := density.values;
    var todo := Cells(target);
    ghost var done: set<Vec3> := {};
    while todo != {}
      invariant density.Valid()
      invariant done + todo == Cells(target) && done !! todo
      invariant CarvedUpTo(density.values, before, cave.values, done)
      decreases |todo|
    {
      var pos :| pos in todo;
      TakeOne(Cells(target), done, todo, pos);
      VisitPosition(cave, density, before, done, pos);
      todo := todo - {pos};
      done := done + {pos};
    }
    CarvedAll(density.values, before, cave.values, target);
  }

  /** The loop body for position `pos`. */
  method VisitPosition(cave: Field3<bool>, density: Field3<real>, ghost before: map<Vec3, real>,
                       ghost done: set<Vec3>, pos: Vec3)
    requires cave.Valid() && density.Valid() && cave.target == density.target
    requires density.target.Contains(pos) && pos !in done
    requires CarvedUpTo(density.values, before, cave.values, done)
    modifies density
    ensures density.Valid()
    ensures CarvedUpTo(density.values, before, cave.values, done + {pos})
  {
    assert pos in cave.values && pos in density.values;
    if cave.values[pos] {
      density.SetWorld(pos, CaveDensity);
    }
  }
}

/** The same provider under the engine's older API (package `org.terasology.caves`). */
module LegacyCaveToDensity {
  import opened Geometry
  import opened Facets
  import CaveToDensity

  /** `process`: walks `BlockRegions.iterable(region)` rather than the
      region itself; the carving is the same. */
  method Process(target: Box, cave: Field3<bool>, density: Field3<real>)
    requires cave.Valid() && density.Valid() && cave.target == target && density.target == target
    modifies density
    ensures density.Valid()
    ensures density.values == CaveToDensity.Carve(old(density.values), cave.values, target)
  {
    CaveToDensity.Process(target, cave, density);
  }
}
