/** The placement logic of the 3D view (components/Scene.tsx): where the ghost
    block snaps when the cursor is over a block or over the floor, the
    offsets of a group being moved, and whether the ghost may be placed. */
module Scene {
  import opened Types
  import opened JsMath
  import opened Constants
  import opened GeometryConfig
  import opened Builder

  /** Connectors and the finishing cap interlock with ordinary blocks. */
  predicate ConnectorClass(t: BrockType)
    requires t in KnownTypes
  {
    InitialSpec(t).value.isConnector || t == Terminal
  }

  /** A type is connector-class exactly when it is one of the four
      connectors or the cap. */
  lemma ConnectorClassTypes(t: BrockType)
    requires t in KnownTypes
    ensures ConnectorClass(t) <==> t in {Conn1D, Conn2D, Conn3D, Conn4D, Terminal}
  {
  }

  const EdgeThreshold: real := 0.20

  /** The lateral shift of a grid snap on a top face: half a unit toward the
      side of the target the cursor is on, once it is farther than the
      threshold from the target's centre. */
  function EdgeOffset(local: real): (off: real)
    ensures Abs(local) > EdgeThreshold ==> off == Sign(local) * 0.5
    ensures Abs(local) <= EdgeThreshold ==> off == 0.0
  {
    if Abs(local) > EdgeThreshold then Sign(local) * 0.5 else 0.0
  }

  /** The height at which a block of the active type sits on the target,
      their faces touching. */
  function StackHeight(target: PlacedBrock, activeType: BrockType, activeRotation: Rot3): real
  {
    target.position.y + RotatedDimensions(target.kind, target.rotation).y / 2.0
      + RotatedDimensions(activeType, activeRotation).y / 2.0
  }

  /** The hit point moved out along the face normal by half the block's
      extent on each axis. */
  function OutAlongNormal(rayPoint: Vec3, normal: Vec3, dims: Vec3): Vec3
  {
    Vec3(rayPoint.x + normal.x * (dims.x / 2.0), rayPoint.y + normal.y * (dims.y / 2.0),
         rayPoint.z + normal.z * (dims.z / 2.0))
  }

  /** `calculateSnap`: the ghost position for a cursor over `target` at
      `rayPoint` on the face with normal `normal`; None when no snap
      applies. */
  function CalculateSnap(rayPoint: Vec3, normal: Vec3, target: PlacedBrock, activeType: BrockType,
                         activeRotation: Rot3, precision: bool): (r: Option<Vec3>)
    ensures target.kind !in KnownTypes || activeType !in KnownTypes ==> r.None?
    ensures target.kind in KnownTypes && activeType in KnownTypes && precision ==> r.Some?
  {
    if target.kind !in KnownTypes || activeType !in KnownTypes then None
    else
      var topFace := normal.y > 0.9;
      if precision then
        var dims := RotatedDimensions(activeType, activeRotation);
        if topFace then
          Some(Vec3(Snap(rayPoint.x, 10), StackHeight(target, activeType, activeRotation), Snap(rayPoint.z, 10)))
        else
          var p := OutAlongNormal(rayPoint, normal, dims);
          Some(Vec3(Snap(p.x, 10), Snap(p.y, 10), Snap(p.z, 10)))
      else if topFace then
        var interlock := ConnectorClass(target.kind) != ConnectorClass(activeType);
        var newY := StackHeight(target, activeType, activeRotation) - (if interlock then 0.5 else 0.0);
        Some(Vec3(target.position.x + EdgeOffset(rayPoint.x - target.position.x), newY,
                  target.position.z + EdgeOffset(rayPoint.z - target.position.z)))
      else if Abs(normal.y) < 0.1 then
        Some(Vec3(target.position.x + Round(normal.x) as real, target.position.y,
                  target.position.z + Round(normal.z) as real))
      else None
  }

  /** A multiple of a tenth. */
  predicate OnTenths(v: real)
  {
    (v * 10.0).Floor as real == v * 10.0
  }

  /** In precision mode a top face gives the hit point rounded to a tenth
      in x and z (so at most half a tenth away), at the stacking height with
      no interlock. */
  lemma SnapPrecisionTop(rayPoint: Vec3, normal: Vec3, target: PlacedBrock, activeType: BrockType, activeRotation: Rot3)
    requires target.kind in KnownTypes && activeType in KnownTypes
    requires normal.y > 0.9
    ensures var r := CalculateSnap(rayPoint, normal, target, activeType, activeRotation, true);
      && r.Some?
      && r.value.x * 10.0 == Round(rayPoint.x * 10.0) as real
      && r.value.z * 10.0 == Round(rayPoint.z * 10.0) as real
      && Abs(r.value.x - rayPoint.x) <= 0.05 && Abs(r.value.z - rayPoint.z) <= 0.05
      && OnTenths(r.value.x) && OnTenths(r.value.z)
      && r.value.y == StackHeight(target, activeType, activeRotation)
  {
    SnapOnTenths(rayPoint.x);
    SnapOnTenths(rayPoint.z);
  }

  /** In precision mode any other face gives the point half the block's
      extent out along the normal, rounded to a tenth on every axis. */
  lemma SnapPrecisionSide(rayPoint: Vec3, normal: Vec3, target: PlacedBrock, activeType: BrockType, activeRotation: Rot3)
    requires target.kind in KnownTypes && activeType in KnownTypes
    requires normal.y <= 0.9
    ensures var r := CalculateSnap(rayPoint, normal, target, activeType, activeRotation, true);
      var p := OutAlongNormal(rayPoint, normal, RotatedDimensions(activeType, activeRotation));
      && r.Some?
      && r.value.x * 10.0 == Round(p.x * 10.0) as real
      && r.value.y * 10.0 == Round(p.y * 10.0) as real
      && r.value.z * 10.0 == Round(p.z * 10.0) as real
      && Abs(r.value.x - p.x) <= 0.05 && Abs(r.value.y - p.y) <= 0.05 && Abs(r.value.z - p.z) <= 0.05
      && OnTenths(r.value.x) && OnTenths(r.value.y) && OnTenths(r.value.z)
  {
    var p := OutAlongNormal(rayPoint, normal, RotatedDimensions(activeType, activeRotation));
    SnapOnTenths(p.x);
    SnapOnTenths(p.y);
    SnapOnTenths(p.z);
  }

  /** Snapping to tenths lands on a tenth at most half a tenth away. */
  lemma SnapOnTenths(x: real)
    ensures OnTenths(Snap(x, 10))
    ensures Abs(Snap(x, 10) - x) <= 0.05
  {
    assert Snap(x, 10) * 10.0 == Round(x * 10.0) as real;
    SnapNear(x, 10);
  }

  /** On a grid-mode top face the new block rests on the target, sunk half a
      unit into it exactly when one of the two is connector-class and the
      other is not; each lateral coordinate is the target's or half a unit
      off toward the cursor. */
  lemma SnapGridTop(rayPoint: Vec3, normal: Vec3, target: PlacedBrock, activeType: BrockType, activeRotation: Rot3)
    requires target.kind in KnownTypes && activeType in KnownTypes
    requires normal.y > 0.9
    ensures var r := CalculateSnap(rayPoint, normal, target, activeType, activeRotation, false);
      && r.Some?
      && r.value.y == StackHeight(target, activeType, activeRotation)
                        - (if ConnectorClass(target.kind) != ConnectorClass(activeType) then 0.5 else 0.0)
      && (rayPoint.x - target.position.x > EdgeThreshold ==> r.value.x == target.position.x + 0.5)
      && (rayPoint.x - target.position.x < -EdgeThreshold ==> r.value.x == target.position.x - 0.5)
      && (Abs(rayPoint.x - target.position.x) <= EdgeThreshold ==> r.value.x == target.position.x)
      && (rayPoint.z - target.position.z > EdgeThreshold ==> r.value.z == target.position.z + 0.5)
      && (rayPoint.z - target.position.z < -EdgeThreshold ==> r.value.z == target.position.z - 0.5)
      && (Abs(rayPoint.z - target.position.z) <= EdgeThreshold ==> r.value.z == target.position.z)
  {
  }

  /** On a grid-mode side face the new block is the target's neighbour along
      the rounded normal, at the same height; any other face that is neither
      top nor side gives no snap. */
  lemma SnapGridSide(rayPoint: Vec3, normal: Vec3, target: PlacedBrock, activeType: BrockType, activeRotation: Rot3)
    requires target.kind in KnownTypes && activeType in KnownTypes
    requires normal.y <= 0.9
    ensures var r := CalculateSnap(rayPoint, normal, target, activeType, activeRotation, false);
      && (r.Some? <==> Abs(normal.y) < 0.1)
      && (r.Some? ==> r.value == Add(target.position, Vec3(Round(normal.x) as real, 0.0, Round(normal.z) as real)))
  {
  }

  /** Stacking examples: a linear connector dropped on a base block lying on
      the floor sits half a unit up, interlocked; a base block on a base block
      sits one unit up. */
  lemma StackingExamples(rayPoint: Vec3, id: Id, stamp: int)
    ensures var base := PlacedBrock(id, Base, Origin, NoRotation, stamp);
      && CalculateSnap(Vec3(0.0, 0.5, 0.0), Vec3(0.0, 1.0, 0.0), base, Conn1D, NoRotation, false) == Some(Vec3(0.0, 0.5, 0.0))
      && CalculateSnap(Vec3(0.0, 0.5, 0.0), Vec3(0.0, 1.0, 0.0), base, Base, NoRotation, false) == Some(Vec3(0.0, 1.0, 0.0))
  {
    var base := PlacedBrock(id, Base, Origin, NoRotation, stamp);
    ConnectorClassTypes(Base);
    ConnectorClassTypes(Conn1D);
    assert StackHeight(base, Conn1D, NoRotation) == 1.0;
    assert StackHeight(base, Base, NoRotation) == 1.0;
  }

  /** The hover position over the floor: x and z on a half-unit grid (a
      tenth in precision mode), the block resting on the floor. */
  function FloorSnap(point: Vec3, activeType: BrockType, rotation: Rot3, precision: bool): (p: Vec3)
  {
    var y := RotatedDimensions(activeType, rotation).y / 2.0;
    if precision then Vec3(Snap(point.x, 10), y, Snap(point.z, 10))
    else Vec3(Snap(point.x, 2), y, Snap(point.z, 2))
  }

  /** A floor snap puts the bottom face on the floor, so the floor guard of
      the collision test never rejects it. */
  lemma FloorSnapOnFloor(point: Vec3, activeType: BrockType, rotation: Rot3, precision: bool)
    ensures var p := FloorSnap(point, activeType, rotation, precision);
      && p.y - RotatedDimensions(activeType, rotation).y / 2.0 == 0.0
      && !BelowFloor(p, activeType, rotation)
  {
  }

  /** Its x and z are on the grid: tenths with precision, halves without. */
  lemma FloorSnapOnGrid(point: Vec3, activeType: BrockType, rotation: Rot3, precision: bool)
    ensures var p := FloorSnap(point, activeType, rotation, precision);
      && (precision ==> p.x * 10.0 == Round(point.x * 10.0) as real && p.z * 10.0 == Round(point.z * 10.0) as real)
      && (!precision ==> p.x * 2.0 == Round(point.x * 2.0) as real && p.z * 2.0 == Round(point.z * 2.0) as real)
  {
    if precision {
      var x, z := Snap(point.x, 10), Snap(point.z, 10);
      assert x * 10.0 == Round(point.x * 10.0) as real && z * 10.0 == Round(point.z * 10.0) as real;
    } else {
      var x, z := Snap(point.x, 2), Snap(point.z, 2);
      assert x * 2.0 == Round(point.x * 2.0) as real && z * 2.0 == Round(point.z * 2.0) as real;
    }
  }

  /** Snapping is stable: a ghost already on the grid does not move when
      the cursor rests on its own snapped position. */
  lemma FloorSnapStable(point: Vec3, activeType: BrockType, rotation: Rot3, precision: bool)
    ensures var p := FloorSnap(point, activeType, rotation, precision);
      FloorSnap(p, activeType, rotation, precision) == p
  {
    var k := if precision then 10 else 2;
    SnapIdempotent(point.x, k);
    SnapIdempotent(point.z, k);
  }

  /** One block of a group being moved, placed relative to the leader. */
  datatype Member = Member(id: Id, kind: BrockType, rotation: Rot3, offset: Vec3)

  /** The selected blocks, in scene order, with their offsets from the leader. */
  function Offsets(blocks: seq<PlacedBrock>, selection: seq<Id>, leader: PlacedBrock): (g: seq<Member>)
    ensures |g| <= |blocks|
  {
    if blocks == [] then []
    else
      var b := blocks[0];
      var rest := Offsets(blocks[1..], selection, leader);
      if b.id in selection then [Member(b.id, b.kind, b.rotation, Sub(b.position, leader.position))] + rest
      else rest
  }

  /** `movingGroup`: empty unless moving with a selection whose first id (the
      leader) is on the scene. */
  function MovingGroup(blocks: seq<PlacedBrock>, selection: seq<Id>, isMoving: bool): seq<Member>
  {
    if !isMoving || selection == [] then []
    else
      match Find(blocks, selection[0])
      case None => []
      case Some(leader) => Offsets(blocks, selection, leader)
  }

  /** Each member of the group is a selected block, and adding its offset to
      the leader's position gives back that block's position; the leader's
      own offset is zero. */
  lemma OffsetsRoundTrip(blocks: seq<PlacedBrock>, selection: seq<Id>, leader: PlacedBrock, m: Member)
    requires m in Offsets(blocks, selection, leader)
    ensures m.id in selection
    ensures exists b :: b in blocks && b.id == m.id && b.kind == m.kind && b.rotation == m.rotation
                        && Add(leader.position, m.offset) == b.position
  {
    var i := OffsetsSource(blocks, selection, leader, m);
    var b := blocks[i];
    assert b in blocks;
    assert Add(leader.position, m.offset) == b.position;
  }

  /** With unique ids, the leader's own member sits at offset zero. */
  lemma LeaderOffsetZero(blocks: seq<PlacedBrock>, selection: seq<Id>, leader: PlacedBrock, m: Member)
    requires m in Offsets(blocks, selection, leader)
    requires m.id == leader.id && leader in blocks && NoDuplicates(Ids(blocks))
    ensures m.offset == Origin
  {
    var i := OffsetsSource(blocks, selection, leader, m);
    var j :| 0 <= j < |blocks| && blocks[j] == leader;
    var ids := Ids(blocks);
    assert ids[i] == blocks[i].id == m.id == leader.id == ids[j];
    assert i == j;
    assert blocks[i] == leader;
  }

  /** The block a member was made from. */
  lemma {:induction false} OffsetsSource(blocks: seq<PlacedBrock>, selection: seq<Id>, leader: PlacedBrock, m: Member)
    returns (i: nat)
    requires m in Offsets(blocks, selection, leader)
    ensures i < |blocks| && m.id in selection
    ensures blocks[i].id == m.id && blocks[i].kind == m.kind && blocks[i].rotation == m.rotation
    ensures m.offset == Sub(blocks[i].position, leader.position)
  {
    var b := blocks[0];
    if b.id in selection && m == Member(b.id, b.kind, b.rotation, Sub(b.position, leader.position)) {
      i := 0;
    } else {
      var k := OffsetsSource(blocks[1..], selection, leader, m);
      i := k + 1;
    }
  }

  /** Every selected block on the scene is in the group. */
  lemma {:induction false} OffsetsComplete(blocks: seq<PlacedBrock>, selection: seq<Id>, leader: PlacedBrock, b: PlacedBrock)
    requires b in blocks && b.id in selection
    ensures Member(b.id, b.kind, b.rotation, Sub(b.position, leader.position)) in Offsets(blocks, selection, leader)
  {
    if b != blocks[0] {
      OffsetsComplete(blocks[1..], selection, leader, b);
    }
  }

  /** While moving with a leader on the scene, the leader is in its own
      group, unturned and at offset zero; otherwise the group is empty. */
  lemma MovingGroupHasLeader(blocks: seq<PlacedBrock>, selection: seq<Id>, isMoving: bool)
    ensures var g := MovingGroup(blocks, selection, isMoving);
      && (!isMoving || selection == [] || selection[0] !in Ids(blocks) ==> g == [])
      && (isMoving && selection != [] && selection[0] in Ids(blocks) ==>
            exists b :: b in blocks && b.id == selection[0] && Member(b.id, b.kind, b.rotation, Origin) in g)
  {
    if isMoving && selection != [] && selection[0] in Ids(blocks) {
      var leader := Find(blocks, selection[0]).value;
      OffsetsComplete(blocks, selection, leader, leader);
      assert Sub(leader.position, leader.position) == Origin;
    }
  }

  /** The group follows a cursor that has moved to `pos`: the position of
      each member. */
  function MemberPosition(pos: Vec3, m: Member): Vec3
  {
    Add(pos, m.offset)
  }

  /** A member of the moving group fits where the cursor puts it: inside
      the room and clear of every block that is not being moved. */
  predicate MemberFits(pos: Vec3, m: Member, blocks: seq<PlacedBrock>, room: RoomSize, selected: set<Id>, cfg: GeoConfig)
  {
    var memberPos := MemberPosition(pos, m);
    InRoom(memberPos, m.kind, m.rotation, room)
      && !Collides(Some(memberPos), blocks, m.kind, m.rotation, selected, cfg)
  }

  /** Whether the ghost at `pos` may be placed: inside the room, and then
      either every member of the moving group fits, or, with no group, the
      single ghost is clear of every block. */
  predicate HoverValid(pos: Vec3, blocks: seq<PlacedBrock>, activeType: BrockType, rotation: Rot3,
                       room: RoomSize, isMoving: bool, group: seq<Member>, selected: set<Id>, cfg: GeoConfig)
  {
    && InRoom(pos, activeType, rotation, room)
    && if isMoving && group != [] then
         forall i :: 0 <= i < |group| ==> MemberFits(pos, group[i], blocks, room, selected, cfg)
       else !Collides(Some(pos), blocks, activeType, rotation, {}, cfg)
  }

  /** The loop of `handleHover` over the moving group, which stops at the
      first member that does not fit. */
  method GroupFits(pos: Vec3, blocks: seq<PlacedBrock>, room: RoomSize, group: seq<Member>, selected: set<Id>, cfg: GeoConfig)
    returns (groupValid: bool)
    ensures groupValid <==> forall i :: 0 <= i < |group| ==> MemberFits(pos, group[i], blocks, room, selected, cfg)
  {
    groupValid := true;
    var i := 0;
    while i < |group|
      invariant 0 <= i <= |group|
      invariant forall k :: 0 <= k < i ==> MemberFits(pos, group[k], blocks, room, selected, cfg)
    {
      var m := group[i];
      var memberPos := MemberPosition(pos, m);
      var inRoom := InRoom(memberPos, m.kind, m.rotation, room);
      if !inRoom {
        groupValid := false;
        break;
      }
      var hit := CheckCollision(Some(memberPos), blocks, m.kind, m.rotation, selected, cfg);
      if hit {
        groupValid := false;
        break;
      }
      i := i + 1;
    }
  }

  /** The ghost state `SceneContent` keeps: where the ghost is drawn and
      whether clicking places it. */
  class Ghost {
    var ghostPos: Option<Vec3>
    var isValidPlacement: bool

    constructor ()
      ensures ghostPos.None? && isValidPlacement
    {
      ghostPos := None;
      isValidPlacement := true;
    }

    /** `handleHover`: moves the ghost and, for a position, recomputes its
        validity; a position outside the room is invalid without a
        collision test. */
    method HandleHover(pos: Option<Vec3>, blocks: seq<PlacedBrock>, activeType: BrockType, rotation: Rot3,
                       room: RoomSize, isMoving: bool, group: seq<Member>, selected: set<Id>, cfg: GeoConfig)
      modifies this
      ensures ghostPos == pos
      ensures pos.None? ==> isValidPlacement == old(isValidPlacement)
      ensures pos.Some? ==>
        isValidPlacement == HoverValid(pos.value, blocks, activeType, rotation, room, isMoving, group, selected, cfg)
    {
      ghostPos := pos;
      if pos.None? {
        return;
      }
      var p := pos.value;
      if !InRoom(p, activeType, rotation, room) {
        isValidPlacement := false;
      } else if isMoving && group != [] {
        isValidPlacement := GroupFits(p, blocks, room, group, selected, cfg);
      } else {
        var hit := CheckCollision(Some(p), blocks, activeType, rotation, {}, cfg);
        isValidPlacement := !hit;
      }
    }
  }
}
