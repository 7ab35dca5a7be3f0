/** The decomposition of each block type into axis-aligned sub-boxes, in two
    independently authored variants: the visual shape and the collision shape
    (services/geometry.ts). */
module Geometry {
  import opened Types
  import opened GeometryConfig

  /** A sub-box: its centre relative to the block's centre, and its size. */
  datatype Box = Box(pos: Vec3, size: Vec3)

  /** The reflection of a sub-box through the plane x = 0, and through z = 0. */
  function MirrorX(b: Box): Box { Box(Vec3(-b.pos.x, b.pos.y, b.pos.z), b.size) }
  function MirrorZ(b: Box): Box { Box(Vec3(b.pos.x, b.pos.y, -b.pos.z), b.size) }

  // ---- Visual geometry helpers (the closures of the visual branch) ----

  function CreateTipX(c: GeoConfig, xDir: real): Box
  {
    Box(Vec3(xDir * c.visArmLong, 0.0, 0.0), Vec3(c.visTipWidth, 1.0, 1.0))
  }

  function CreateTipZ(c: GeoConfig, zDir: real): Box
  {
    Box(Vec3(0.0, 0.0, zDir * c.visArmLong), Vec3(1.0, 1.0, c.visTipWidth))
  }

  function CreatePillars(c: GeoConfig, yPos: real): seq<Box>
  {
    var size := Vec3(c.visPillarSize, 0.5, c.visPillarSize);
    var off := c.visPillarOffset;
    [Box(Vec3(off, yPos, off), size), Box(Vec3(-off, yPos, off), size),
     Box(Vec3(off, yPos, -off), size), Box(Vec3(-off, yPos, -off), size)]
  }

  /** The visual branch of `getComponentBoxes`. */
  function VisualBoxes(t: BrockType, c: GeoConfig): (r: seq<Box>)
  {
    var armLong := c.visArmLong;
    var armShort := c.visArmShort;
    var hub := c.visHubThick;
    match t
    case Base =>
      [Box(Vec3(0.0, -0.5 + c.visBaseSlabHeight / 2.0, 0.0), Vec3(1.0, c.visBaseSlabHeight, 1.0))]
      + CreatePillars(c, 0.25)
    case Double =>
      [Box(Origin, Vec3(1.0, 1.0, 1.0))] + CreatePillars(c, 0.75) + CreatePillars(c, -0.75)
    case Conn1D =>
      [Box(Origin, Vec3(0.68, 1.0, 1.0 / 3.0)),
       Box(Vec3(-5.0 / 12.0, 0.0, 0.0), Vec3(1.0 / 6.0, 1.0, 1.0)),
       Box(Vec3(5.0 / 12.0, 0.0, 0.0), Vec3(1.0 / 6.0, 1.0, 1.0))]
    case Conn2D =>
      [Box(Vec3((armLong - armShort) / 2.0, 0.0, 0.0), Vec3(armShort + armLong, 1.0, hub)),
       CreateTipX(c, 1.0),
       Box(Vec3(0.0, 0.0, (armLong - armShort) / 2.0), Vec3(hub, 1.0, armShort + armLong)),
       CreateTipZ(c, 1.0)]
    case Conn3D =>
      [Box(Origin, Vec3(armLong * 2.0, 1.0, hub)),
       CreateTipX(c, 1.0), CreateTipX(c, -1.0),
       Box(Vec3(0.0, 0.0, (armLong - armShort) / 2.0), Vec3(hub, 1.0, armShort + armLong)),
       CreateTipZ(c, 1.0)]
    case Conn4D =>
      [Box(Origin, Vec3(armLong * 2.0, 1.0, hub)),
       CreateTipX(c, 1.0), CreateTipX(c, -1.0),
       Box(Origin, Vec3(hub, 1.0, armLong * 2.0)),
       CreateTipZ(c, 1.0), CreateTipZ(c, -1.0)]
    case Terminal =>
      [Box(Vec3(0.0, 0.0, c.visTerminalPlateZ), Vec3(c.visTerminalPlateDepth, 1.0, c.visTipWidth)),
       Box(Vec3(0.0, 0.0, c.visTerminalStemZ), Vec3(hub, 1.0, 0.333))]
    case Unlisted(_) =>
      [Box(Origin, Vec3(1.0, 1.0, 1.0))]
  }

  // ---- Collision geometry helpers ----

  /** The collision height of connector and TERMINAL parts, and the collision
      width of the BASE and DOUBLE slabs. */
  function ShrunkUnit(c: GeoConfig): real { 1.0 - c.colHShrink }

  function MkArmX(c: GeoConfig, dir: real): Box
  {
    Box(Vec3(dir * 0.45, 0.0, 0.0), Vec3(0.7, ShrunkUnit(c), c.colArmThick))
  }

  function MkArmZ(c: GeoConfig, dir: real): Box
  {
    Box(Vec3(0.0, 0.0, dir * 0.45), Vec3(c.colArmThick, ShrunkUnit(c), 0.7))
  }

  function MkBackX(c: GeoConfig, dir: real): Box
  {
    Box(Vec3(dir * 0.32, 0.0, 0.0), Vec3(0.36, ShrunkUnit(c), c.colArmThick))
  }

  function MkBackZ(c: GeoConfig, dir: real): Box
  {
    Box(Vec3(0.0, 0.0, dir * 0.32), Vec3(c.colArmThick, ShrunkUnit(c), 0.36))
  }

  function MkTipX(c: GeoConfig, dir: real): Box
  {
    Box(Vec3(dir * c.colTipCenter, 0.0, 0.0), Vec3(c.colTipWidth, ShrunkUnit(c), c.colTipLen))
  }

  function MkTipZ(c: GeoConfig, dir: real): Box
  {
    Box(Vec3(0.0, 0.0, dir * c.colTipCenter), Vec3(c.colTipLen, ShrunkUnit(c), c.colTipWidth))
  }

  function MkTip1D(c: GeoConfig, dir: real): Box
  {
    Box(Vec3(dir * c.col1dTipCenter, 0.0, 0.0), Vec3(c.colTipWidth, ShrunkUnit(c), c.colTipLen))
  }

  function Hub(c: GeoConfig): Box
  {
    Box(Origin, Vec3(c.colArmThick, ShrunkUnit(c), c.colArmThick))
  }

  function MkPillars(c: GeoConfig, yPos: real): seq<Box>
  {
    var size := Vec3(c.colPillarSize, 0.45, c.colPillarSize);
    [Box(Vec3(0.35, yPos, 0.35), size), Box(Vec3(-0.35, yPos, 0.35), size),
     Box(Vec3(0.35, yPos, -0.35), size), Box(Vec3(-0.35, yPos, -0.35), size)]
  }

  /** The collision branch of `getComponentBoxes`. */
  function CollisionBoxes(t: BrockType, c: GeoConfig): (r: seq<Box>)
  {
    match t
    case Base =>
      [Box(Vec3(0.0, -0.25, 0.0), Vec3(ShrunkUnit(c), 0.5, ShrunkUnit(c)))] + MkPillars(c, 0.25)
    case Double =>
      [Box(Origin, Vec3(ShrunkUnit(c), 1.0, ShrunkUnit(c)))] + MkPillars(c, 0.75) + MkPillars(c, -0.75)
    case Conn1D =>
      [Box(Origin, Vec3(0.65, ShrunkUnit(c), c.col1dThick)), MkTip1D(c, 1.0), MkTip1D(c, -1.0)]
    case Conn2D =>
      [Hub(c), MkArmX(c, 1.0), MkTipX(c, 1.0), MkBackX(c, -1.0), MkArmZ(c, 1.0), MkTipZ(c, 1.0), MkBackZ(c, -1.0)]
    case Conn3D =>
      [Hub(c), MkArmX(c, 1.0), MkTipX(c, 1.0), MkArmX(c, -1.0), MkTipX(c, -1.0),
       MkArmZ(c, 1.0), MkTipZ(c, 1.0), MkBackZ(c, -1.0)]
    case Conn4D =>
      [Hub(c), MkArmX(c, 1.0), MkTipX(c, 1.0), MkArmX(c, -1.0), MkTipX(c, -1.0),
       MkArmZ(c, 1.0), MkTipZ(c, 1.0), MkArmZ(c, -1.0), MkTipZ(c, -1.0)]
    case Terminal =>
      [Box(Vec3(0.0, 0.0, 0.4), Vec3(0.95, ShrunkUnit(c), 0.1)),
       Box(Vec3(0.0, 0.0, 0.2), Vec3(c.colArmThick, ShrunkUnit(c), 0.4))]
    case Unlisted(_) =>
      [Box(Origin, Vec3(0.5, 0.5, 0.5))]
  }

  /** `getComponentBoxes(type, forCollision)` on a configuration snapshot; it
      reads nothing else, so equal arguments give equal lists. */
  function ComponentBoxes(t: BrockType, forCollision: bool, c: GeoConfig): (r: seq<Box>)
    ensures |r| == BoxCount(t, forCollision)
  {
    if forCollision then CollisionBoxes(t, c) else VisualBoxes(t, c)
  }

  /** The number of sub-boxes of each shape. */
  function BoxCount(t: BrockType, forCollision: bool): nat
  {
    match t
    case Base => 5
    case Double => 9
    case Conn1D => 3
    case Conn2D => if forCollision then 7 else 4
    case Conn3D => if forCollision then 8 else 5
    case Conn4D => if forCollision then 9 else 6
    case Terminal => 2
    case Unlisted(_) => 1
  }

  /** An unlisted type is a unit cube when drawn and a half-unit cube when
      checked for collision, both at the block's centre. */
  lemma UnlistedFallback(tag: string, c: GeoConfig)
    ensures ComponentBoxes(Unlisted(tag), false, c) == [Box(Origin, Vec3(1.0, 1.0, 1.0))]
    ensures ComponentBoxes(Unlisted(tag), true, c) == [Box(Origin, Vec3(0.5, 0.5, 0.5))]
  {
  }

  /** The CONN_1D visual shape is fixed: no parameter changes it. */
  lemma Conn1DVisualFixed(c1: GeoConfig, c2: GeoConfig)
    ensures ComponentBoxes(Conn1D, false, c1) == ComponentBoxes(Conn1D, false, c2)
  {
  }

  /** The BASE visual slab always rests on y = -0.5, and is as tall as
      `vis_base_slab_height`. */
  lemma BaseSlabOnFloor(c: GeoConfig)
    ensures var slab := ComponentBoxes(Base, false, c)[0];
      slab.pos.y - slab.size.y / 2.0 == -0.5 && slab.size.y == c.visBaseSlabHeight
  {
  }

  /** Every collision part of a connector or TERMINAL is 1 - `col_h_shrink`
      tall, and so are the X and Z widths of the BASE and DOUBLE slabs. */
  lemma CollisionShrink(t: BrockType, c: GeoConfig)
    ensures t in {Conn1D, Conn2D, Conn3D, Conn4D, Terminal} ==>
      forall b :: b in ComponentBoxes(t, true, c) ==> b.size.y == 1.0 - c.colHShrink
    ensures t in {Base, Double} ==>
      var slab := ComponentBoxes(t, true, c)[0];
      slab.size.x == slab.size.z == 1.0 - c.colHShrink
  {
    var r := ComponentBoxes(t, true, c);
    match t
    case Conn1D => assert forall i :: 0 <= i < 3 ==> r[i].size.y == 1.0 - c.colHShrink;
    case Conn2D => assert forall i :: 0 <= i < 7 ==> r[i].size.y == 1.0 - c.colHShrink;
    case Conn3D => assert forall i :: 0 <= i < 8 ==> r[i].size.y == 1.0 - c.colHShrink;
    case Conn4D => assert forall i :: 0 <= i < 9 ==> r[i].size.y == 1.0 - c.colHShrink;
    case Terminal => assert forall i :: 0 <= i < 2 ==> r[i].size.y == 1.0 - c.colHShrink;
    case _ =>
  }

  /** Back-stubs (the 0.36-long parts at distance 0.32) exist only on -X and
      -Z for CONN_2D and only on -Z for CONN_3D; CONN_4D has none. */
  lemma BackStubs(c: GeoConfig)
    ensures MkBackX(c, -1.0) in ComponentBoxes(Conn2D, true, c) && MkBackZ(c, -1.0) in ComponentBoxes(Conn2D, true, c)
    ensures MkBackZ(c, -1.0) in ComponentBoxes(Conn3D, true, c)
    ensures forall t :: t in {Conn2D, Conn3D, Conn4D} ==>
      forall b :: b in ComponentBoxes(t, true, c) && (b.size.x == 0.36 || b.size.z == 0.36) && b.size != Hub(c).size
        && b.size.x != c.colTipWidth && b.size.z != c.colTipWidth && b.size.x != c.colTipLen && b.size.z != c.colTipLen
        && b.size.x != 0.7 && b.size.z != 0.7
        ==> (t == Conn2D && (b == MkBackX(c, -1.0) || b == MkBackZ(c, -1.0))) || (t == Conn3D && b == MkBackZ(c, -1.0))
  {
  }

  /** The CONN_4D collision shape is its own mirror image in x and in z. */
  lemma Conn4DMirrorSymmetric(c: GeoConfig)
    ensures forall b :: b in ComponentBoxes(Conn4D, true, c) ==>
      MirrorX(b) in ComponentBoxes(Conn4D, true, c) && MirrorZ(b) in ComponentBoxes(Conn4D, true, c)
  {
    Conn4DMirrorX(c);
    Conn4DMirrorZ(c);
  }

  lemma Conn4DMirrorX(c: GeoConfig)
    ensures forall b :: b in ComponentBoxes(Conn4D, true, c) ==> MirrorX(b) in ComponentBoxes(Conn4D, true, c)
  {
    var r := ComponentBoxes(Conn4D, true, c);
    assert MirrorX(r[1]) == r[3] && MirrorX(r[2]) == r[4] && MirrorX(r[3]) == r[1] && MirrorX(r[4]) == r[2];
    assert MirrorX(r[0]) == r[0];
    assert forall i :: 5 <= i < 9 ==> MirrorX(r[i]) == r[i];
  }

  lemma Conn4DMirrorZ(c: GeoConfig)
    ensures forall b :: b in ComponentBoxes(Conn4D, true, c) ==> MirrorZ(b) in ComponentBoxes(Conn4D, true, c)
  {
    var r := ComponentBoxes(Conn4D, true, c);
    assert MirrorZ(r[5]) == r[7] && MirrorZ(r[6]) == r[8] && MirrorZ(r[7]) == r[5] && MirrorZ(r[8]) == r[6];
    assert MirrorZ(r[0]) == r[0];
    assert forall i :: 1 <= i < 5 ==> MirrorZ(r[i]) == r[i];
  }

  /** The collision pillars of BASE stand at y = 0.25... */
  lemma BasePillars(c: GeoConfig)
    ensures ComponentBoxes(Base, true, c)[1..] == MkPillars(c, 0.25)
  {
    var head := [Box(Vec3(0.0, -0.25, 0.0), Vec3(ShrunkUnit(c), 0.5, ShrunkUnit(c)))];
    assert (head + MkPillars(c, 0.25))[1..] == MkPillars(c, 0.25);
  }

  /** ...those of DOUBLE at y = 0.75 and y = -0.75... */
  lemma DoublePillars(c: GeoConfig)
    ensures ComponentBoxes(Double, true, c)[1..] == MkPillars(c, 0.75) + MkPillars(c, -0.75)
  {
    var head := [Box(Origin, Vec3(ShrunkUnit(c), 1.0, ShrunkUnit(c)))];
    var tail := MkPillars(c, 0.75) + MkPillars(c, -0.75);
    assert head + MkPillars(c, 0.75) + MkPillars(c, -0.75) == head + tail;
    assert (head + tail)[1..] == tail;
  }

  /** ...and each set of four stands at (+-0.35, y, +-0.35), 0.45 tall and
      `col_pillar_size` wide. */
  lemma PillarLayout(c: GeoConfig)
    ensures forall y, b :: b in MkPillars(c, y) ==>
      b.pos.y == y && (b.pos.x == 0.35 || b.pos.x == -0.35) && (b.pos.z == 0.35 || b.pos.z == -0.35)
      && b.size == Vec3(c.colPillarSize, 0.45, c.colPillarSize)
  {
  }
}
