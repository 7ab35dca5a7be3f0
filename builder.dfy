/** The placement physics of services/builder.ts: rotated dimensions, the
    world box of a rotated sub-box, the overlap test, the room-bounds test
    and the collision test. */
module Builder {
  import opened Types
  import opened JsMath
  import opened Constants
  import opened GeometryConfig
  import opened Geometry
  import opened QuarterTurn

  // ---- getRotatedDimensions ----

  /** The exchanges of `getRotatedDimensions` on a triple: y and z for an
      odd x step, then x and z for an odd y step, then x and y for an odd z
      step. */
  function SwapByParity(dims: Vec3, r: Rot3): (d: Vec3)
    ensures d == PermZ(PermY(PermX(dims, r.x), r.y), r.z)
  {
    var (x0, y0, z0) := (dims.x, dims.y, dims.z);
    var (x1, y1, z1) := if Odd(r.x) then (x0, z0, y0) else (x0, y0, z0);
    var (x2, y2, z2) := if Odd(r.y) then (z1, y1, x1) else (x1, y1, z1);
    var (x3, y3, z3) := if Odd(r.z) then (y2, x2, z2) else (x2, y2, z2);
    Vec3(x3, y3, z3)
  }

  /** `getRotatedDimensions`: the exchanged catalogue dimensions, or a unit
      cube for a type the catalogue does not list. */
  function RotatedDimensions(t: BrockType, r: Rot3): (d: Vec3)
  {
    match Dimensions(t)
    case None => Vec3(1.0, 1.0, 1.0)
    case Some(dims) => SwapByParity(dims, r)
  }

  /** The result is positive on every axis. */
  lemma RotatedDimensionsPositive(t: BrockType, r: Rot3)
    ensures var d := RotatedDimensions(t, r); d.x > 0.0 && d.y > 0.0 && d.z > 0.0
  {
    var d := RotatedDimensions(t, r);
    if Dimensions(t).Some? {
      var dims := Dimensions(t).value;
      assert d.x in {dims.x, dims.y, dims.z} && d.y in {dims.x, dims.y, dims.z} && d.z in {dims.x, dims.y, dims.z};
    }
  }

  /** The result is a permutation of the catalogue dimensions, and the unit
      cube for an unlisted type. */
  lemma RotatedDimensionsPermutes(t: BrockType, r: Rot3)
    ensures Dimensions(t).None? ==> RotatedDimensions(t, r) == Vec3(1.0, 1.0, 1.0)
    ensures Dimensions(t).Some? ==> Components(RotatedDimensions(t, r)) == Components(Dimensions(t).value)
  {
    if Dimensions(t).Some? {
      var dims := Dimensions(t).value;
      var a := PermX(dims, r.x);
      var b := PermY(a, r.y);
      PermXPermutes(dims, r.x);
      PermYPermutes(a, r.y);
      PermZPermutes(b, r.z);
    }
  }

  /** Only the parity of each step matters. */
  lemma RotatedDimensionsParity(t: BrockType, r: Rot3, r': Rot3)
    requires Odd(r.x) == Odd(r'.x) && Odd(r.y) == Odd(r'.y) && Odd(r.z) == Odd(r'.z)
    ensures RotatedDimensions(t, r) == RotatedDimensions(t, r')
  {
  }

  /** Changing a step by two, or negating it, keeps its parity. */
  lemma OddShift(k: int)
    ensures Odd(k + 2) == Odd(k) && Odd(k - 2) == Odd(k) && Odd(-k) == Odd(k)
  {
  }

  /** So the rotated dimensions do not change when any step changes by two
      or changes sign. */
  lemma RotatedDimensionsHalfTurn(t: BrockType, r: Rot3)
    ensures RotatedDimensions(t, Rot3(r.x + 2, r.y, r.z)) == RotatedDimensions(t, r)
    ensures RotatedDimensions(t, Rot3(r.x, r.y - 2, r.z)) == RotatedDimensions(t, r)
    ensures RotatedDimensions(t, Rot3(r.x, r.y, r.z + 2)) == RotatedDimensions(t, r)
    ensures RotatedDimensions(t, Rot3(-r.x, -r.y, -r.z)) == RotatedDimensions(t, r)
  {
    OddShift(r.x);
    OddShift(r.y);
    OddShift(r.z);
    RotatedDimensionsParity(t, Rot3(r.x + 2, r.y, r.z), r);
    RotatedDimensionsParity(t, Rot3(r.x, r.y - 2, r.z), r);
    RotatedDimensionsParity(t, Rot3(r.x, r.y, r.z + 2), r);
    RotatedDimensionsParity(t, Rot3(-r.x, -r.y, -r.z), r);
  }

  /** The exchanges happen in x, y, z order, while the true rotation permutes
      the axes in z, y, x order; with at most one odd step the order is
      immaterial and the two agree. */
  lemma RotatedDimensionsSingleAxis(t: BrockType, r: Rot3)
    requires Dimensions(t).Some?
    requires (if Odd(r.x) then 1 else 0) + (if Odd(r.y) then 1 else 0) + (if Odd(r.z) then 1 else 0) <= 1
    ensures RotatedDimensions(t, r) == AbsVec(Rotate(Dimensions(t).value, r))
  {
    var dims := Dimensions(t).value;
    AbsRotate(dims, r);
    assert AbsVec(dims) == dims;
  }

  /** With two odd steps they differ: a CONN_3D (2 x 1 x 1.5) turned once
      about x and once about y has the true extents 1.5 x 2 x 1, while
      `getRotatedDimensions` reports 1 x 1.5 x 2. */
  lemma RotatedDimensionsMultiAxis()
    ensures RotatedDimensions(Conn3D, Rot3(1, 1, 0)) == Vec3(1.0, 1.5, 2.0)
    ensures AbsVec(Rotate(Vec3(2.0, 1.0, 1.5), Rot3(1, 1, 0))) == Vec3(1.5, 2.0, 1.0)
  {
    OddIsRemainder(1);
    OddIsRemainder(0);
  }

  // ---- transformBoxToWorld ----

  /** An axis-aligned box by its corners. */
  datatype Aabb = Aabb(min: Vec3, max: Vec3)

  /** Componentwise lo <= v <= hi. */
  predicate Within(v: Vec3, lo: Vec3, hi: Vec3)
  {
    lo.x <= v.x <= hi.x && lo.y <= v.y <= hi.y && lo.z <= v.z <= hi.z
  }

  /** The corner signs in the order the source lists them. */
  const CornerSigns: seq<Vec3> := [
    Vec3(1.0, 1.0, 1.0), Vec3(-1.0, 1.0, 1.0), Vec3(1.0, -1.0, 1.0), Vec3(1.0, 1.0, -1.0),
    Vec3(-1.0, -1.0, 1.0), Vec3(1.0, -1.0, -1.0), Vec3(-1.0, 1.0, -1.0), Vec3(-1.0, -1.0, -1.0)]

  /** The centre of a sub-box in the world: its rotated offset plus the
      block's position. */
  function WorldCenter(box: Box, blockPos: Vec3, blockRot: Rot3): Vec3
  {
    Add(Rotate(box.pos, blockRot), blockPos)
  }

  /** Corner j of a sub-box, rotated with the block and moved to the world. */
  function WorldCorner(box: Box, blockPos: Vec3, blockRot: Rot3, j: nat): Vec3
    requires j < 8
  {
    Add(Rotate(Mul(CornerSigns[j], Scale(box.size, 0.5)), blockRot), WorldCenter(box, blockPos, blockRot))
  }

  /** The world box of a rotated sub-box in closed form: its world centre
      plus or minus the magnitudes of its rotated half-size. */
  function WorldAabb(box: Box, blockPos: Vec3, blockRot: Rot3): (r: Aabb)
    ensures r.min.x <= r.max.x && r.min.y <= r.max.y && r.min.z <= r.max.z
  {
    var c := WorldCenter(box, blockPos, blockRot);
    var e := AbsVec(Rotate(Scale(box.size, 0.5), blockRot));
    Aabb(Sub(c, e), Add(c, e))
  }

  /** Every corner lies in the closed-form box, and the first and last
      corners are opposite corners of it. */
  lemma CornerInWorldAabb(box: Box, blockPos: Vec3, blockRot: Rot3, j: nat)
    requires j < 8
    ensures var a := WorldAabb(box, blockPos, blockRot);
      Within(WorldCorner(box, blockPos, blockRot, j), a.min, a.max)
    ensures var h := Rotate(Scale(box.size, 0.5), blockRot);
      var c := WorldCenter(box, blockPos, blockRot);
      WorldCorner(box, blockPos, blockRot, 0) == Add(h, c)
      && WorldCorner(box, blockPos, blockRot, 7) == Add(Scale(h, -1.0), c)
  {
    var half := Scale(box.size, 0.5);
    RotateScale(CornerSigns[j], half, blockRot);
    var s := AxisPermutation(CornerSigns[j], blockRot);
    assert IsSign(s);
    assert Mul(CornerSigns[0], half) == half;
    RotateNegate(half, blockRot);
  }

  /** `transformBoxToWorld`: rotates the eight corners of the sub-box with
      the block, moves them to the world and takes their componentwise
      minimum and maximum. */
  method TransformBoxToWorld(box: Box, blockPos: Vec3, blockRot: Rot3) returns (r: Aabb)
    ensures r == WorldAabb(box, blockPos, blockRot)
    ensures forall j :: 0 <= j < 8 ==> Within(WorldCorner(box, blockPos, blockRot, j), r.min, r.max)
  {
    var center := WorldCenter(box, blockPos, blockRot);
    var halfSize := Scale(box.size, 0.5);
    ghost var a := WorldAabb(box, blockPos, blockRot);
    var first := Add(Rotate(Mul(CornerSigns[0], halfSize), blockRot), center);
    var mn, mx := first, first;
    CornerInWorldAabb(box, blockPos, blockRot, 0);
    var i := 1;
    while i < 8
      invariant 1 <= i <= 8
      invariant forall j :: 0 <= j < i ==> Within(WorldCorner(box, blockPos, blockRot, j), mn, mx)
      invariant Within(mn, a.min, a.max) && Within(mx, a.min, a.max)
    {
      var c := Add(Rotate(Mul(CornerSigns[i], halfSize), blockRot), center);
      assert c == WorldCorner(box, blockPos, blockRot, i);
      CornerInWorldAabb(box, blockPos, blockRot, i);
      Widen(mn, mx, c, a.min, a.max);
      mn := Vec3(Min(mn.x, c.x), Min(mn.y, c.y), Min(mn.z, c.z));
      mx := Vec3(Max(mx.x, c.x), Max(mx.y, c.y), Max(mx.z, c.z));
      i := i + 1;
    }
    ExtremeCornersSpan(box, blockPos, blockRot, mn, mx);
    r := Aabb(mn, mx);
  }

  /** Taking a point of the box into running bounds keeps them inside the
      box, covers the point and loses nothing they covered. */
  lemma Widen(mn: Vec3, mx: Vec3, c: Vec3, lo: Vec3, hi: Vec3)
    requires Within(mn, lo, hi) && Within(mx, lo, hi) && Within(c, lo, hi)
    ensures Within(Vec3(Min(mn.x, c.x), Min(mn.y, c.y), Min(mn.z, c.z)), lo, hi)
    ensures Within(Vec3(Max(mx.x, c.x), Max(mx.y, c.y), Max(mx.z, c.z)), lo, hi)
    ensures Within(c, Vec3(Min(mn.x, c.x), Min(mn.y, c.y), Min(mn.z, c.z)),
                      Vec3(Max(mx.x, c.x), Max(mx.y, c.y), Max(mx.z, c.z)))
    ensures forall v :: Within(v, mn, mx) ==>
      Within(v, Vec3(Min(mn.x, c.x), Min(mn.y, c.y), Min(mn.z, c.z)),
                Vec3(Max(mx.x, c.x), Max(mx.y, c.y), Max(mx.z, c.z)))
  {
  }

  /** Bounds that lie in the closed-form box and hold its two opposite
      corners are that box. */
  lemma ExtremeCornersSpan(box: Box, blockPos: Vec3, blockRot: Rot3, mn: Vec3, mx: Vec3)
    requires var a := WorldAabb(box, blockPos, blockRot);
      Within(mn, a.min, a.max) && Within(mx, a.min, a.max)
    requires Within(WorldCorner(box, blockPos, blockRot, 0), mn, mx)
    requires Within(WorldCorner(box, blockPos, blockRot, 7), mn, mx)
    ensures Aabb(mn, mx) == WorldAabb(box, blockPos, blockRot)
  {
    CornerInWorldAabb(box, blockPos, blockRot, 7);
  }

  /** An unrotated sub-box lands at its offset plus the block's position,
      half its size to either side. */
  lemma WorldAabbUnrotated(box: Box, blockPos: Vec3)
    requires box.size.x >= 0.0 && box.size.y >= 0.0 && box.size.z >= 0.0
    ensures WorldAabb(box, blockPos, NoRotation)
      == Aabb(Sub(Add(box.pos, blockPos), Scale(box.size, 0.5)), Add(Add(box.pos, blockPos), Scale(box.size, 0.5)))
  {
    RotateIdentity(box.pos);
    RotateIdentity(Scale(box.size, 0.5));
  }

  /** A quarter-turn rotation permutes the half-extents of the world box and
      never changes their magnitudes. */
  lemma WorldAabbExtentsPermuted(box: Box, blockPos: Vec3, blockRot: Rot3)
    ensures var a := WorldAabb(box, blockPos, blockRot);
      Components(Scale(Sub(a.max, a.min), 0.5)) == Components(AbsVec(Scale(box.size, 0.5)))
  {
    var a := WorldAabb(box, blockPos, blockRot);
    var e := AbsVec(Rotate(Scale(box.size, 0.5), blockRot));
    assert Scale(Sub(a.max, a.min), 0.5) == e;
    AbsRotate(Scale(box.size, 0.5), blockRot);
  }

  // ---- checkBoxOverlap ----

  const OverlapEps: real := 0.001

  /** `checkBoxOverlap`: the boxes interpenetrate by more than 0.001 on every
      axis. */
  predicate Overlaps(a: Aabb, b: Aabb)
  {
    && a.min.x < b.max.x - OverlapEps && a.max.x > b.min.x + OverlapEps
    && a.min.y < b.max.y - OverlapEps && a.max.y > b.min.y + OverlapEps
    && a.min.z < b.max.z - OverlapEps && a.max.z > b.min.z + OverlapEps
  }

  /** The test is symmetric, and boxes that only touch, or interpenetrate by
      at most 0.001 from opposite sides of one axis, do not overlap. */
  lemma OverlapsSymmetric(a: Aabb, b: Aabb)
    ensures Overlaps(a, b) <==> Overlaps(b, a)
    ensures a.max.x <= b.min.x + OverlapEps || a.max.y <= b.min.y + OverlapEps || a.max.z <= b.min.z + OverlapEps
      ==> !Overlaps(a, b) && !Overlaps(b, a)
  {
  }

  /** A world box overlaps itself exactly when it is thicker than 0.001 on
      every axis. */
  lemma SelfOverlap(a: Aabb)
    ensures Overlaps(a, a) <==>
      a.max.x - a.min.x > OverlapEps && a.max.y - a.min.y > OverlapEps && a.max.z - a.min.z > OverlapEps
  {
  }

  // ---- checkRoomBounds ----

  const RoomEps: real := 0.01

  /** `checkRoomBounds`: the unlimited studio admits everything; any other
      room admits a block whose rotated footprint lies within
      [0, width] x [0, depth] up to 0.01. */
  function InRoom(position: Vec3, t: BrockType, rot: Rot3, room: RoomSize): (ok: bool)
    ensures room == Unlimited ==> ok
    ensures room != Unlimited ==>
      (ok <==> var d := RotatedDimensions(t, rot); var spec := RoomSpecOf(room);
        -RoomEps <= position.x - d.x / 2.0 && position.x + d.x / 2.0 <= spec.width + RoomEps
        && -RoomEps <= position.z - d.z / 2.0 && position.z + d.z / 2.0 <= spec.depth + RoomEps)
  {
    if room == Unlimited then true
    else
      var spec := RoomSpecOf(room);
      var dims := RotatedDimensions(t, rot);
      var bMinX := position.x - dims.x / 2.0;
      var bMaxX := position.x + dims.x / 2.0;
      var bMinZ := position.z - dims.z / 2.0;
      var bMaxZ := position.z + dims.z / 2.0;
      if bMinX < 0.0 - RoomEps || bMaxX > spec.width + RoomEps then false
      else if bMinZ < 0.0 - RoomEps || bMaxZ > spec.depth + RoomEps then false
      else true
  }

  /** The height of a position never matters. */
  lemma InRoomIgnoresHeight(p: Vec3, y: real, t: BrockType, rot: Rot3, room: RoomSize)
    ensures InRoom(Vec3(p.x, y, p.z), t, rot, room) == InRoom(p, t, rot, room)
  {
  }

  /** In the 2 m niche (10 x 5 units) a unit block fits flush against the
      far wall and 0.005 beyond it, but not 0.02 beyond it; a CONN_3D
      against the left wall fits only when turned so that its 1.5-unit side
      runs along x. */
  lemma NicheBoundsExamples()
    ensures InRoom(Vec3(9.5, 0.5, 0.5), Base, NoRotation, Niche2M)
    ensures InRoom(Vec3(9.505, 0.5, 0.5), Base, NoRotation, Niche2M)
    ensures !InRoom(Vec3(9.52, 0.5, 0.5), Base, NoRotation, Niche2M)
    ensures InRoom(Vec3(0.75, 0.5, 1.0), Conn3D, Rot3(0, 1, 0), Niche2M)
    ensures !InRoom(Vec3(0.75, 0.5, 1.0), Conn3D, NoRotation, Niche2M)
  {
    OddIsRemainder(1);
    OddIsRemainder(0);
  }

  // ---- checkCollision ----

  const FloorEps: real := 0.05

  /** The squared distance of two points. */
  function DistSq(a: Vec3, b: Vec3): (d: real)
    ensures d >= 0.0
  {
    (a.x - b.x) * (a.x - b.x) + (a.y - b.y) * (a.y - b.y) + (a.z - b.z) * (a.z - b.z)
  }

  /** The candidate's rotated bottom face is more than 0.05 below the floor. */
  predicate BelowFloor(position: Vec3, t: BrockType, rot: Rot3)
  {
    position.y - RotatedDimensions(t, rot).y / 2.0 < -FloorEps
  }

  /** Some sub-box of the first list, placed at (pos1, rot1), overlaps some
      sub-box of the second, placed at (pos2, rot2). */
  predicate BoxesOverlap(boxes1: seq<Box>, pos1: Vec3, rot1: Rot3, boxes2: seq<Box>, pos2: Vec3, rot2: Rot3)
  {
    exists i, j :: 0 <= i < |boxes1| && 0 <= j < |boxes2|
      && Overlaps(WorldAabb(boxes1[i], pos1, rot1), WorldAabb(boxes2[j], pos2, rot2))
  }

  /** The block is not ignored, its centre is within distance 3 of the
      candidate's, and some collision sub-box of the candidate overlaps some
      collision sub-box of the block, each in its world place. */
  predicate Blocks(block: PlacedBrock, position: Vec3, t: BrockType, rot: Rot3, ignoreIds: set<Id>, cfg: GeoConfig)
  {
    && block.id !in ignoreIds
    && DistSq(block.position, position) <= 9.0
    && BoxesOverlap(ComponentBoxes(t, true, cfg), position, rot,
                    ComponentBoxes(block.kind, true, cfg), block.position, block.rotation)
  }

  /** What `checkCollision` decides: a missing position and a position below
      the floor collide; otherwise the candidate collides when some existing
      block blocks it. */
  predicate Collides(position: Option<Vec3>, existing: seq<PlacedBrock>, t: BrockType, rot: Rot3,
                     ignoreIds: set<Id>, cfg: GeoConfig)
  {
    || position.None?
    || BelowFloor(position.value, t, rot)
    || exists block :: block in existing && Blocks(block, position.value, t, rot, ignoreIds, cfg)
  }

  /** `checkCollision`, reading the collision shapes from the configuration
      snapshot `cfg`. */
  method CheckCollision(position: Option<Vec3>, existing: seq<PlacedBrock>, currentType: BrockType,
                        currentRotation: Rot3, ignoreIds: set<Id>, cfg: GeoConfig) returns (hit: bool)
    ensures hit == Collides(position, existing, currentType, currentRotation, ignoreIds, cfg)
  {
    if position.None? {
      return true;
    }
    var pos := position.value;
    var dim1 := RotatedDimensions(currentType, currentRotation);
    if pos.y - dim1.y / 2.0 < -FloorEps {
      return true;
    }
    var newBoxes := ComponentBoxes(currentType, true, cfg);
    var k := 0;
    while k < |existing|
      invariant 0 <= k <= |existing|
      invariant forall k' :: 0 <= k' < k ==> !Blocks(existing[k'], pos, currentType, currentRotation, ignoreIds, cfg)
    {
      var block := existing[k];
      if block.id !in ignoreIds && DistSq(block.position, pos) <= 9.0 {
        var existingBoxes := ComponentBoxes(block.kind, true, cfg);
        var overlap := AnyBoxesOverlap(newBoxes, pos, currentRotation, existingBoxes, block.position, block.rotation);
        if overlap {
          assert Blocks(block, pos, currentType, currentRotation, ignoreIds, cfg);
          return true;
        }
      }
      k := k + 1;
    }
    return false;
  }

  /** The pairwise sub-box test `checkCollision` runs for one nearby block:
      every sub-box of the candidate against every sub-box of the block,
      stopping at the first overlap. */
  method AnyBoxesOverlap(newBoxes: seq<Box>, pos: Vec3, rot: Rot3, existingBoxes: seq<Box>, blockPos: Vec3, blockRot: Rot3)
    returns (hit: bool)
    ensures hit == BoxesOverlap(newBoxes, pos, rot, existingBoxes, blockPos, blockRot)
  {
    var i := 0;
    while i < |newBoxes|
      invariant 0 <= i <= |newBoxes|
      invariant forall i', j' :: 0 <= i' < i && 0 <= j' < |existingBoxes| ==>
        !Overlaps(WorldAabb(newBoxes[i'], pos, rot), WorldAabb(existingBoxes[j'], blockPos, blockRot))
    {
      var worldNB := TransformBoxToWorld(newBoxes[i], pos, rot);
      var j := 0;
      while j < |existingBoxes|
        invariant 0 <= j <= |existingBoxes|
        invariant forall j' :: 0 <= j' < j ==> !Overlaps(worldNB, WorldAabb(existingBoxes[j'], blockPos, blockRot))
      {
        var worldEB := TransformBoxToWorld(existingBoxes[j], blockPos, blockRot);
        if Overlaps(worldNB, worldEB) {
          return true;
        }
        j := j + 1;
      }
      i := i + 1;
    }
    return false;
  }

  /** With no existing blocks only the floor stops a placement. */
  lemma CollidesEmpty(position: Vec3, t: BrockType, rot: Rot3, ignoreIds: set<Id>, cfg: GeoConfig)
    ensures Collides(Some(position), [], t, rot, ignoreIds, cfg) <==> BelowFloor(position, t, rot)
  {
  }

  /** A placement collides with two lists of blocks together exactly when it
      collides with one of them; so adding blocks can only turn a free
      placement into a blocked one. */
  lemma CollidesAppend(position: Option<Vec3>, a: seq<PlacedBrock>, b: seq<PlacedBrock>, t: BrockType, rot: Rot3,
                       ignoreIds: set<Id>, cfg: GeoConfig)
    ensures Collides(position, a + b, t, rot, ignoreIds, cfg)
      <==> Collides(position, a, t, rot, ignoreIds, cfg) || Collides(position, b, t, rot, ignoreIds, cfg)
  {
  }

  /** Ignored blocks never block: if every block is ignored, only the floor
      matters. */
  lemma CollidesAllIgnored(position: Vec3, existing: seq<PlacedBrock>, t: BrockType, rot: Rot3,
                           ignoreIds: set<Id>, cfg: GeoConfig)
    requires forall block :: block in existing ==> block.id in ignoreIds
    ensures Collides(Some(position), existing, t, rot, ignoreIds, cfg) <==> BelowFloor(position, t, rot)
  {
  }

  /** Every first collision sub-box is at least 0.1 thick on every axis
      under the default configuration. */
  lemma FirstPartThick(t: BrockType)
    ensures var b := ComponentBoxes(t, true, Defaults)[0];
      b.size.x >= 0.1 && b.size.y >= 0.1 && b.size.z >= 0.1
  {
  }

  /** Under the default configuration, a block placed exactly where an
      existing block of the same type and rotation stands collides with it
      (unless that block is ignored). */
  lemma SamePlacementCollides(block: PlacedBrock, ignoreIds: set<Id>)
    requires block.id !in ignoreIds
    ensures Collides(Some(block.position), [block], block.kind, block.rotation, ignoreIds, Defaults)
  {
    var p, t, rot := block.position, block.kind, block.rotation;
    var b := ComponentBoxes(t, true, Defaults)[0];
    FirstPartThick(t);
    AbsRotateAtLeast(Scale(b.size, 0.5), rot, 0.05);
    var w := WorldAabb(b, p, rot);
    SelfOverlap(w);
    assert Overlaps(w, w);
    assert DistSq(p, p) == 0.0;
    assert Blocks(block, p, t, rot, ignoreIds, Defaults);
  }
}
