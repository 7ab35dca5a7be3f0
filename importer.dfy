/** Recognising imported meshes as blocks (services/importer.ts): the type a
    bounding box of the given size in metres stands for, and the grid
    position an imported block gets. */
module Importer {
  import opened Types
  import opened JsMath
  import opened Constants

  /** The three sizes in ascending order: `[x, y, z].sort((a, b) => a - b)`. */
  datatype Sorted3 = Sorted3(lo: real, mid: real, hi: real)

  function Sort3(v: Vec3): (s: Sorted3)
    ensures s.lo <= s.mid <= s.hi
  {
    if v.x <= v.y then
      if v.y <= v.z then Sorted3(v.x, v.y, v.z)
      else if v.x <= v.z then Sorted3(v.x, v.z, v.y)
      else Sorted3(v.z, v.x, v.y)
    else
      if v.x <= v.z then Sorted3(v.y, v.x, v.z)
      else if v.y <= v.z then Sorted3(v.y, v.z, v.x)
      else Sorted3(v.z, v.y, v.x)
  }

  /** Sorting keeps the sizes, only reordering them. */
  lemma Sort3Permutes(v: Vec3)
    ensures var s := Sort3(v); multiset{s.lo, s.mid, s.hi} == multiset{v.x, v.y, v.z}
  {
  }

  /** Two ascending triples with the same elements are the same triple. */
  lemma SortedUnique(a: Sorted3, b: Sorted3)
    requires a.lo <= a.mid <= a.hi && b.lo <= b.mid <= b.hi
    requires multiset{a.lo, a.mid, a.hi} == multiset{b.lo, b.mid, b.hi}
    ensures a == b
  {
    var m := multiset{a.lo, a.mid, a.hi};
    assert a.lo in m && b.lo in m && a.hi in m && b.hi in m;
    assert a.lo == b.lo by {
      assert b.lo in multiset{a.lo, a.mid, a.hi} && a.lo in multiset{b.lo, b.mid, b.hi};
    }
    assert a.hi == b.hi by {
      assert b.hi in multiset{a.lo, a.mid, a.hi} && a.hi in multiset{b.lo, b.mid, b.hi};
    }
    assert multiset{a.lo, a.mid, a.hi} - multiset{a.lo, a.hi} == multiset{a.mid};
    assert multiset{b.lo, b.mid, b.hi} - multiset{b.lo, b.hi} == multiset{b.mid};
  }

  const Tolerance: real := 0.05

  /** `isApprox`: strictly closer than the tolerance. */
  predicate Approx(a: real, b: real)
  {
    Abs(a - b) < Tolerance
  }

  predicate Near(s: Sorted3, lo: real, mid: real, hi: real)
  {
    Approx(s.lo, lo) && Approx(s.mid, mid) && Approx(s.hi, hi)
  }

  /** `String.prototype.toLowerCase` on the ASCII letters. */
  function ToLower(s: string): (r: string)
    ensures |r| == |s|
  {
    if s == [] then []
    else [if 'A' <= s[0] <= 'Z' then (s[0] as int + 32) as char else s[0]] + ToLower(s[1..])
  }

  /** `String.prototype.includes`. */
  predicate Contains(s: string, sub: string)
  {
    sub <= s || (s != [] && Contains(s[1..], sub))
  }

  /** Which of the three unit cubes a part is, by its name; the connector
      words are checked first. */
  function CubeKind(name: string): (t: BrockType)
    ensures t in {Conn1D, Terminal, Base}
  {
    var lowerName := ToLower(name);
    if Contains(lowerName, "conn") || Contains(lowerName, "1d") then Conn1D
    else if Contains(lowerName, "term") || Contains(lowerName, "cap") then Terminal
    else Base
  }

  /** The five shapes of the catalogue, sorted sizes in metres. */
  datatype Shape = Cube | Tall | Square | Tee | Cross

  /** The sorted size in metres each shape stands for. */
  function Nominal(s: Shape): Sorted3
  {
    match s
    case Cube => Sorted3(0.2, 0.2, 0.2)
    case Tall => Sorted3(0.2, 0.2, 0.4)
    case Square => Sorted3(0.2, 0.3, 0.3)
    case Tee => Sorted3(0.2, 0.3, 0.4)
    case Cross => Sorted3(0.2, 0.4, 0.4)
  }

  /** The first shape, in the order the source tests them, that the sorted
      sizes are near. */
  function ShapeOf(d: Sorted3): (r: Option<Shape>)
    ensures r.Some? ==> Near(d, Nominal(r.value).lo, Nominal(r.value).mid, Nominal(r.value).hi)
  {
    if Near(d, 0.2, 0.2, 0.2) then Some(Cube)
    else if Near(d, 0.2, 0.2, 0.4) then Some(Tall)
    else if Near(d, 0.2, 0.3, 0.3) then Some(Square)
    else if Near(d, 0.2, 0.3, 0.4) then Some(Tee)
    else if Near(d, 0.2, 0.4, 0.4) then Some(Cross)
    else None
  }

  /** The block type of a shape; the name only separates the three unit
      cubes. */
  function ShapeType(s: Shape, name: string): (t: BrockType)
    ensures t in KnownTypes
  {
    match s
    case Cube => CubeKind(name)
    case Tall => Double
    case Square => Conn2D
    case Tee => Conn3D
    case Cross => Conn4D
  }

  /** `matchBlockType`: the block a bounding box of the given size stands
      for. */
  function MatchBlockType(size: Vec3, name: string): (r: Option<BrockType>)
    ensures r.Some? ==> r.value in KnownTypes
  {
    match ShapeOf(Sort3(size))
    case None => None
    case Some(s) => Some(ShapeType(s, name))
  }

  /** The type depends only on the sizes, not on which axis carries which:
      every permutation of the box gives the same answer. */
  lemma MatchPermutationInvariant(x: real, y: real, z: real, name: string)
    ensures var r := MatchBlockType(Vec3(x, y, z), name);
      && MatchBlockType(Vec3(x, z, y), name) == r && MatchBlockType(Vec3(y, x, z), name) == r
      && MatchBlockType(Vec3(y, z, x), name) == r && MatchBlockType(Vec3(z, x, y), name) == r
      && MatchBlockType(Vec3(z, y, x), name) == r
  {
    Sort3Symmetric(x, y, z);
  }

  /** Sorting forgets the order of the sizes: exchanging the first two or
      the last two gives the same triple, and these generate every
      permutation. */
  lemma Sort3Symmetric(x: real, y: real, z: real)
    ensures var s := Sort3(Vec3(x, y, z));
      && Sort3(Vec3(x, z, y)) == s && Sort3(Vec3(y, x, z)) == s && Sort3(Vec3(y, z, x)) == s
      && Sort3(Vec3(z, x, y)) == s && Sort3(Vec3(z, y, x)) == s
  {
    SwapFirst(x, y, z);
    SwapLast(x, y, z);
    SwapFirst(x, z, y);
    SwapLast(y, x, z);
    SwapFirst(y, z, x);
  }

  lemma SwapFirst(x: real, y: real, z: real)
    ensures Sort3(Vec3(y, x, z)) == Sort3(Vec3(x, y, z))
  {
    Sort3Permutes(Vec3(y, x, z));
    Sort3Permutes(Vec3(x, y, z));
    SortedUnique(Sort3(Vec3(y, x, z)), Sort3(Vec3(x, y, z)));
  }

  lemma SwapLast(x: real, y: real, z: real)
    ensures Sort3(Vec3(x, z, y)) == Sort3(Vec3(x, y, z))
  {
    Sort3Permutes(Vec3(x, z, y));
    Sort3Permutes(Vec3(x, y, z));
    SortedUnique(Sort3(Vec3(x, z, y)), Sort3(Vec3(x, y, z)));
  }

  /** The catalogue size of a type in metres, at 0.2 m a unit, sorted. */
  function NominalSize(t: BrockType): Sorted3
    requires t in KnownTypes
  {
    Sort3(Scale(Dimensions(t).value, 0.2))
  }

  /** A recognised box has the size of the catalogue entry of its type: each
      sorted nominal dimension is within the tolerance of the box's. */
  lemma MatchAgreesWithCatalogue(size: Vec3, name: string)
    requires MatchBlockType(size, name).Some?
    ensures var t := MatchBlockType(size, name).value;
      var nominal := NominalSize(t);
      Near(Sort3(size), nominal.lo, nominal.mid, nominal.hi)
  {
    var shape := ShapeOf(Sort3(size)).value;
    ShapeTypeNominal(shape, name);
  }

  /** Each shape is the catalogue size of the type it stands for. */
  lemma ShapeTypeNominal(s: Shape, name: string)
    ensures NominalSize(ShapeType(s, name)) == Nominal(s)
  {
    NominalSizes();
    match s
    case Cube =>
      var t := CubeKind(name);
      assert t == Base || t == Conn1D || t == Terminal;
    case Tall =>
    case Square =>
    case Tee =>
    case Cross =>
  }

  /** The catalogue sizes in metres, sorted. */
  lemma NominalSizes()
    ensures NominalSize(Base) == NominalSize(Conn1D) == NominalSize(Terminal) == Sorted3(0.2, 0.2, 0.2)
    ensures NominalSize(Double) == Sorted3(0.2, 0.2, 0.4)
    ensures NominalSize(Conn2D) == Sorted3(0.2, 0.3, 0.3)
    ensures NominalSize(Conn3D) == Sorted3(0.2, 0.3, 0.4)
    ensures NominalSize(Conn4D) == Sorted3(0.2, 0.4, 0.4)
  {
    assert NominalSize(Base) == Sorted3(0.2, 0.2, 0.2);
    assert NominalSize(Conn1D) == Sorted3(0.2, 0.2, 0.2);
    assert NominalSize(Terminal) == Sorted3(0.2, 0.2, 0.2);
    assert NominalSize(Double) == Sorted3(0.2, 0.2, 0.4);
    assert NominalSize(Conn2D) == Sorted3(0.2, 0.3, 0.3);
    assert NominalSize(Conn3D) == Sorted3(0.2, 0.3, 0.4);
    assert NominalSize(Conn4D) == Sorted3(0.2, 0.4, 0.4);
  }

  /** Only sizes near one of the five shapes are recognised, and the name
      matters only for the unit cube. */
  lemma MatchNone(size: Vec3, name: string, other: string)
    ensures var d := Sort3(size);
      MatchBlockType(size, name).None? <==>
        !Near(d, 0.2, 0.2, 0.2) && !Near(d, 0.2, 0.2, 0.4) && !Near(d, 0.2, 0.3, 0.3)
        && !Near(d, 0.2, 0.3, 0.4) && !Near(d, 0.2, 0.4, 0.4)
    ensures !Near(Sort3(size), 0.2, 0.2, 0.2) ==> MatchBlockType(size, name) == MatchBlockType(size, other)
  {
  }

  /** The tolerance is strict: a side 0.05 off no longer matches. */
  lemma ToleranceStrict(name: string)
    ensures MatchBlockType(Vec3(0.2, 0.2, 0.25), name).None?
    ensures MatchBlockType(Vec3(0.2, 0.2, 0.24), name).Some?
  {
    assert Sort3(Vec3(0.2, 0.2, 0.25)) == Sorted3(0.2, 0.2, 0.25);
    assert Sort3(Vec3(0.2, 0.2, 0.24)) == Sorted3(0.2, 0.2, 0.24);
  }

  /** A word occurring at some position of a name is contained in it. */
  lemma {:induction false} ContainsAt(s: string, sub: string, i: nat)
    requires i <= |s| && sub <= s[i..]
    ensures Contains(s, sub)
    decreases i
  {
    if i == 0 {
      assert s[0..] == s;
    } else {
      assert s[1..][i - 1..] == s[i..];
      ContainsAt(s[1..], sub, i - 1);
    }
  }

  /** Every letter of a contained word occurs in the name. */
  lemma {:induction false} ContainsLetters(s: string, sub: string)
    requires Contains(s, sub)
    ensures forall c :: c in sub ==> c in s
  {
    if !(sub <= s) {
      ContainsLetters(s[1..], sub);
    }
  }

  /** A word with a letter the name lacks is not contained in it. */
  lemma MissingLetter(s: string, sub: string, c: char)
    requires c in sub && c !in s
    ensures !Contains(s, sub)
  {
    if Contains(s, sub) {
      ContainsLetters(s, sub);
    }
  }

  /** For a unit cube the name decides, the connector words first: a part
      called "Conn-Cap" is a connector although it also says "cap". */
  lemma ConnCapName()
    ensures CubeKind("Conn-Cap") == Conn1D
  {
    assert ToLower("Conn-Cap") == "conn-cap";
    ContainsAt("conn-cap", "conn", 0);
  }

  /** "CAP" is a cap: case does not matter. */
  lemma CapName()
    ensures CubeKind("CAP") == Terminal
  {
    var lower := "cap";
    assert ToLower("CAP") == lower;
    MissingLetter(lower, "conn", 'o');
    MissingLetter(lower, "1d", '1');
    ContainsAt(lower, "cap", 0);
  }

  /** A name with none of the words is a base block. */
  lemma PlainName()
    ensures CubeKind("Part") == Base
  {
    var lower := "part";
    assert ToLower("Part") == lower;
    MissingLetter(lower, "conn", 'c');
    MissingLetter(lower, "1d", '1');
    MissingLetter(lower, "term", 'e');
    MissingLetter(lower, "cap", 'c');
  }

  /** A cube-sized box is named by its part name. */
  lemma MatchCubeExample()
    ensures MatchBlockType(Vec3(0.2, 0.2, 0.2), "Conn-Cap") == Some(Conn1D)
  {
    ConnCapName();
    assert Sort3(Vec3(0.2, 0.2, 0.2)) == Sorted3(0.2, 0.2, 0.2);
  }

  /** A tall box is a DOUBLE whatever its name says, in any orientation. */
  lemma MatchTallExample()
    ensures MatchBlockType(Vec3(0.21, 0.4, 0.19), "cap") == Some(Double)
  {
    assert Sort3(Vec3(0.21, 0.4, 0.19)) == Sorted3(0.19, 0.21, 0.4);
  }

  /** A coordinate in metres to grid units (0.2 m each), rounded to the
      nearest half unit. */
  function SnapHalf(metres: real): (u: real)
  {
    Round(metres / 0.2 * 2.0) as real / 2.0
  }

  /** Snapped coordinates are multiples of half a unit and at most a quarter
      unit from the exact value. */
  /** A multiple of half a grid unit. */
  predicate OnHalves(v: real)
  {
    (v * 2.0).Floor as real == v * 2.0
  }

  lemma SnapHalfProperties(metres: real)
    ensures OnHalves(SnapHalf(metres))
    ensures Abs(SnapHalf(metres) - metres / 0.2) <= 0.25
  {
  }

  /** The block `parseGltfToBlocks` creates for a recognised mesh, with the
      random id and the clock as parameters. */
  function ImportedBlock(id: Id, t: BrockType, center: Vec3, now: int): (b: PlacedBrock)
    ensures b.id == id && b.kind == t && b.timestamp == now
    ensures b.rotation == NoRotation
    ensures OnHalves(b.position.x) && OnHalves(b.position.y) && OnHalves(b.position.z)
    ensures Abs(b.position.x - center.x / 0.2) <= 0.25
    ensures Abs(b.position.y - center.y / 0.2) <= 0.25
    ensures Abs(b.position.z - center.z / 0.2) <= 0.25
  {
    SnapHalfProperties(center.x);
    SnapHalfProperties(center.y);
    SnapHalfProperties(center.z);
    PlacedBrock(id, t, Vec3(SnapHalf(center.x), SnapHalf(center.y), SnapHalf(center.z)), NoRotation, now)
  }
}
