/** The records shared by every part of the designer (types.ts). */
module Types {

  datatype Option<+T> = None | Some(value: T)

  /** The seven block types of the catalogue. `Unlisted` stands for any other
      type tag a block record can carry at run time (a loaded scene file, a
      generated design): the catalogue has no entry for it, and every
      defensive fallback of the source is about such a tag. */
  datatype BrockType =
    | Base | Double | Conn1D | Conn2D | Conn3D | Conn4D | Terminal
    | Unlisted(tag: string)

  /** The room presets; `Unlimited` imposes no bounds. */
  datatype RoomSize = Unlimited | Niche2M | Wall3M | Corner3M | Room4x5

  /** A point or an extent in grid units (1 unit = 0.2 m). */
  datatype Vec3 = Vec3(x: real, y: real, z: real)

  /** Rotation as a number of quarter turns about each axis. */
  datatype Rot3 = Rot3(x: int, y: int, z: int)

  type Id = string

  /** A block in the scene; the source's field `type` is called `kind` here. */
  datatype PlacedBrock = PlacedBrock(id: Id, kind: BrockType, position: Vec3, rotation: Rot3, timestamp: int)

  const KnownTypes: set<BrockType> := {Base, Double, Conn1D, Conn2D, Conn3D, Conn4D, Terminal}

  const Origin: Vec3 := Vec3(0.0, 0.0, 0.0)
  const NoRotation: Rot3 := Rot3(0, 0, 0)

  function Add(a: Vec3, b: Vec3): Vec3 { Vec3(a.x + b.x, a.y + b.y, a.z + b.z) }
  function Sub(a: Vec3, b: Vec3): Vec3 { Vec3(a.x - b.x, a.y - b.y, a.z - b.z) }
  function Scale(a: Vec3, k: real): Vec3 { Vec3(a.x * k, a.y * k, a.z * k) }
  /** Component-wise product. */
  function Mul(a: Vec3, b: Vec3): Vec3 { Vec3(a.x * b.x, a.y * b.y, a.z * b.z) }
  function Dot(a: Vec3, b: Vec3): real { a.x * b.x + a.y * b.y + a.z * b.z }
  function AddRot(a: Rot3, b: Rot3): Rot3 { Rot3(a.x + b.x, a.y + b.y, a.z + b.z) }

  /** The id of every block, in order. */
  function Ids(blocks: seq<PlacedBrock>): (r: seq<Id>)
    ensures |r| == |blocks|
    ensures forall i :: 0 <= i < |blocks| ==> r[i] == blocks[i].id
  {
    if blocks == [] then [] else [blocks[0].id] + Ids(blocks[1..])
  }

  /** `Array.prototype.indexOf`: the position of the first occurrence of
      `x`, or -1 when there is none. */
  function IndexOf<T(==)>(s: seq<T>, x: T): (i: int)
    ensures x !in s ==> i == -1
    ensures x in s ==> 0 <= i < |s| && s[i] == x && x !in s[..i]
  {
    if s == [] then -1
    else if s[0] == x then 0
    else
      var k := IndexOf(s[1..], x);
      if k == -1 then -1
      else
        assert s[..k + 1] == [s[0]] + s[1..][..k];
        k + 1
  }

  /** `blocks.find(b => b.id === id)`: the first block with the id. */
  function Find(blocks: seq<PlacedBrock>, id: Id): (r: Option<PlacedBrock>)
    ensures r.Some? <==> id in Ids(blocks)
    ensures r.Some? ==> r.value == blocks[IndexOf(Ids(blocks), id)] && r.value.id == id
  {
    if blocks == [] then None
    else
      assert Ids(blocks) == [blocks[0].id] + Ids(blocks[1..]);
      if blocks[0].id == id then Some(blocks[0])
      else Find(blocks[1..], id)
  }

  predicate NoDuplicates<T(==)>(s: seq<T>)
  {
    forall i, j :: 0 <= i < j < |s| ==> s[i] != s[j]
  }

  /** A sequence has no repeats exactly when its head is not in its tail and
      its tail has none. */
  lemma NoDuplicatesCons<T>(s: seq<T>)
    requires s != []
    ensures NoDuplicates(s) <==> s[0] !in s[1..] && NoDuplicates(s[1..])
  {
    if s[0] !in s[1..] && NoDuplicates(s[1..]) {
      forall i, j | 0 <= i < j < |s|
        ensures s[i] != s[j]
      {
        if i > 0 {
          assert s[i] == s[1..][i - 1] && s[j] == s[1..][j - 1];
        } else {
          assert s[j] == s[1..][j - 1];
        }
      }
    }
    if NoDuplicates(s) {
      forall k | 0 <= k < |s| - 1
        ensures s[1..][k] != s[0]
      {
        assert s[1..][k] == s[k + 1];
      }
    }
  }
}

/** The JavaScript `Math` functions the source relies on, over exact reals. */
module JsMath {

  function Abs(x: real): (r: real)
    ensures r >= 0.0 && (r == x || r == -x)
  {
    if x < 0.0 then -x else x
  }

  function Min(a: real, b: real): (r: real)
    ensures r <= a && r <= b && (r == a || r == b)
  {
    if a <= b then a else b
  }

  function Max(a: real, b: real): (r: real)
    ensures r >= a && r >= b && (r == a || r == b)
  {
    if a >= b then a else b
  }

  /** `Math.sign` on a real (NaN and -0 aside). */
  function Sign(x: real): (r: real)
    ensures x > 0.0 ==> r == 1.0
    ensures x < 0.0 ==> r == -1.0
    ensures x == 0.0 ==> r == 0.0
  {
    if x > 0.0 then 1.0 else if x < 0.0 then -1.0 else 0.0
  }

  /** `Math.round`: the nearest integer, a half rounded toward +infinity. */
  function Round(x: real): (n: int)
    ensures n as real - 0.5 <= x < n as real + 0.5
  {
    (x + 0.5).Floor
  }

  /** `Math.round(x * snap) / snap`: the nearest multiple of 1/snap. */
  function Snap(x: real, snap: nat): (r: real)
    requires snap > 0
    ensures r * snap as real == Round(x * snap as real) as real
  {
    Round(x * snap as real) as real / snap as real
  }

  /** The nearest integer with halves rounded away from zero, as
      `Number.prototype.toFixed` does. */
  function RoundHalfAway(x: real): (n: int)
    ensures x >= 0.0 ==> n as real - 0.5 <= x < n as real + 0.5
    ensures x < 0.0 ==> n as real - 0.5 < x <= n as real + 0.5
  {
    if x >= 0.0 then (x + 0.5).Floor else -((-x + 0.5).Floor)
  }

  /** An odd step count: its absolute value leaves remainder one when halved. */
  predicate Odd(k: int)
  {
    (if k < 0 then -k else k) % 2 == 1
  }

  /** Snapping moves a value by at most half a grid step. */
  lemma SnapNear(x: real, snap: nat)
    requires snap > 0
    ensures Abs(Snap(x, snap) - x) * snap as real <= 0.5
  {
    var k := snap as real;
    var r := Snap(x, snap);
    assert (r - x) * k == r * k - x * k;
  }

  /** On either grid the source uses (halves and tenths), snapping a value
      already on the grid leaves it where it is. */
  lemma SnapIdempotent(x: real, snap: nat)
    requires snap == 2 || snap == 10
    ensures Snap(Snap(x, snap), snap) == Snap(x, snap)
  {
    var y := Snap(x, snap);
    var n := Round(x * snap as real);
    assert y * snap as real == n as real;
    assert Round(n as real) == n;
  }
}
