/** `InfernalTreeFacet`: the sparse map of tree anchors to tree descriptors,
    plus the list of tree positions the provider appends to, and the
    nearest-tree query over that list. */
module TreeFacets {
  import opened Geometry

  /** A tree descriptor: trunk height and one canopy radius per layer below the anchor. */
  datatype InfernalTree = InfernalTree(trunkHeight: int, canopyLayers: seq<int>)

  /** A position object (`Vector3ic`). The list stores references, and the
      nearest-tree query compares them by reference, so positions are objects here. */
  class PosRef {
    const pos: Vec3

    constructor (p: Vec3)
      ensures pos == p
    {
      pos := p;
    }
  }

  class TreeFacet {
    const target: Box
    const border: Border
    var trees: map<Vec3, InfernalTree>
    var treesPos: seq<PosRef>

    function Region(): Box { WorldRegion(target, border) }

    ghost predicate Valid()
      reads this
    {
      forall p :: p in trees ==> Region().Contains(p)
    }

    constructor (target: Box, border: Border)
      ensures this.target == target && this.border == border
      ensures Valid() && trees == map[] && treesPos == []
    {
      this.target := target;
      this.border := border;
      trees := map[];
      treesPos := [];
    }

    /** `setWorld(pos, tree)`. */
    method SetWorld(p: Vec3, t: InfernalTree)
      requires Valid() && Region().Contains(p)
      modifies this
      ensures Valid()
      ensures trees == old(trees)[p := t] && treesPos == old(treesPos)
    {
      trees := trees[p := t];
    }

    /** `addTree(pos)`: append to the end of the list; earlier entries are kept. */
    method AddTree(pos: PosRef)
      modifies this
      ensures treesPos == old(treesPos) + [pos]
      ensures trees == old(trees)
    {
      treesPos := treesPos + [pos];
    }

    /** `getDistanceToNearestTree(pos)`, on squared distances: -1 when every
        listed entry is the very object `pos` (in particular when the list is
        empty), otherwise the least distance from `pos` to a listed position
        that is a different object. Entries equal in value but not in identity
        are not skipped. */
    method GetDistanceToNearestTree(pos: PosRef) returns (d: int)
      ensures d == -1 <==> forall i :: 0 <= i < |treesPos| ==> treesPos[i] == pos
      ensures d != -1 ==> exists i :: 0 <= i < |treesPos| && treesPos[i] != pos && d == SqDist(treesPos[i].pos, pos.pos)
      ensures forall i :: 0 <= i < |treesPos| && treesPos[i] != pos ==> d <= SqDist(treesPos[i].pos, pos.pos)
      ensures d >= -1
    {
      d := -1;
      var k := 0;
      while k < |treesPos|
        invariant 0 <= k <= |treesPos|
        invariant d >= -1
        invariant d == -1 <==> forall i :: 0 <= i < k ==> treesPos[i] == pos
        invariant d != -1 ==> exists i :: 0 <= i < k && treesPos[i] != pos && d == SqDist(treesPos[i].pos, pos.pos)
        invariant forall i :: 0 <= i < k && treesPos[i] != pos ==> d <= SqDist(treesPos[i].pos, pos.pos)
      {
        var treePos := treesPos[k];
        if treePos != pos {
          var dist := SqDist(treePos.pos, pos.pos);
          if dist < d || d < 0 {
            d := dist;
          }
        }
        k := k + 1;
      }
    }
  }
}
