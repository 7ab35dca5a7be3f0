/** Exact rotation by whole quarter turns, the rotation `transformBoxToWorld`
    applies through a `THREE.Euler(rx, ry, rz, 'XYZ')` (services/builder.ts).
    With angles that are multiples of a right angle the cosine and sine are
    exactly -1, 0 or 1, so the rotation is a signed permutation of the axes. */
module QuarterTurn {
  import opened Types
  import opened JsMath

  /** cos(k * pi/2) and sin(k * pi/2); `%` is Euclidean, so negative k work. */
  function Cos(k: int): (c: real)
    ensures c == 1.0 || c == 0.0 || c == -1.0
    ensures c == 0.0 <==> Odd(k)
  {
    OddIsRemainder(k);
    var m := k % 4;
    if m == 0 then 1.0 else if m == 2 then -1.0 else 0.0
  }

  function Sin(k: int): (s: real)
    ensures s == 1.0 || s == 0.0 || s == -1.0
    ensures s == 0.0 <==> !Odd(k)
  {
    OddIsRemainder(k);
    var m := k % 4;
    if m == 1 then 1.0 else if m == 3 then -1.0 else 0.0
  }

  /** `Math.abs(k) % 2 === 1` is the Euclidean remainder of k by 4 being odd. */
  lemma OddIsRemainder(k: int)
    ensures Odd(k) <==> (k % 4 == 1 || k % 4 == 3)
  {
    var q, r := k / 4, k % 4;
    assert k == 4 * q + r && 0 <= r < 4;
    if k < 0 {
      ParityOf(-k, -2 * q - 2, 4 - r);
    } else {
      ParityOf(k, 2 * q, r);
    }
  }

  lemma ParityOf(a: int, m: int, n: int)
    requires a == 2 * m + n
    ensures a % 2 == n % 2
  {
  }

  /** The rotation matrices about one axis, applied to a column vector. */
  function RotX(v: Vec3, k: int): Vec3
  {
    var c, s := Cos(k), Sin(k);
    Vec3(v.x, c * v.y - s * v.z, s * v.y + c * v.z)
  }

  function RotY(v: Vec3, k: int): Vec3
  {
    var c, s := Cos(k), Sin(k);
    Vec3(c * v.x + s * v.z, v.y, -s * v.x + c * v.z)
  }

  function RotZ(v: Vec3, k: int): Vec3
  {
    var c, s := Cos(k), Sin(k);
    Vec3(c * v.x - s * v.y, s * v.x + c * v.y, v.z)
  }

  /** `v.applyEuler(new Euler(r.x * pi/2, r.y * pi/2, r.z * pi/2, 'XYZ'))`:
      the matrix Rx * Ry * Rz, so the z turn acts first. */
  function Rotate(v: Vec3, r: Rot3): Vec3
  {
    RotX(RotY(RotZ(v, r.z), r.y), r.x)
  }

  /** The axis exchanges of one odd quarter turn: about z, x and y trade
      places; about y, x and z; about x, y and z. */
  function PermZ(v: Vec3, k: int): Vec3 { if Odd(k) then Vec3(v.y, v.x, v.z) else v }
  function PermY(v: Vec3, k: int): Vec3 { if Odd(k) then Vec3(v.z, v.y, v.x) else v }
  function PermX(v: Vec3, k: int): Vec3 { if Odd(k) then Vec3(v.x, v.z, v.y) else v }

  /** The axis permutation of a rotation, composed in the order the turns act. */
  function AxisPermutation(v: Vec3, r: Rot3): Vec3
  {
    PermX(PermY(PermZ(v, r.z), r.y), r.x)
  }

  function AbsVec(v: Vec3): (a: Vec3)
    ensures a.x >= 0.0 && a.y >= 0.0 && a.z >= 0.0
  {
    Vec3(Abs(v.x), Abs(v.y), Abs(v.z))
  }

  /** The components of a vector, as a multiset. */
  function Components(v: Vec3): multiset<real>
  {
    multiset{v.x, v.y, v.z}
  }

  /** Exchanging two axes keeps the components. */
  lemma PermZPermutes(v: Vec3, k: int)
    ensures Components(PermZ(v, k)) == Components(v)
  {
    forall e ensures multiset{v.y, v.x, v.z}[e] == Components(v)[e] {}
  }

  lemma PermYPermutes(v: Vec3, k: int)
    ensures Components(PermY(v, k)) == Components(v)
  {
    forall e ensures multiset{v.z, v.y, v.x}[e] == Components(v)[e] {}
  }

  lemma PermXPermutes(v: Vec3, k: int)
    ensures Components(PermX(v, k)) == Components(v)
  {
    forall e ensures multiset{v.x, v.z, v.y}[e] == Components(v)[e] {}
  }

  lemma AxisPermutationPermutes(v: Vec3, r: Rot3)
    ensures Components(AxisPermutation(v, r)) == Components(v)
  {
    PermZPermutes(v, r.z);
    PermYPermutes(PermZ(v, r.z), r.y);
    PermXPermutes(PermY(PermZ(v, r.z), r.y), r.x);
  }

  /** Scaling a vector component-wise before a quarter turn about z is
      scaling it after the turn by the exchanged factors. */
  lemma RotZScale(s: Vec3, h: Vec3, k: int)
    ensures RotZ(Mul(s, h), k) == Mul(PermZ(s, k), RotZ(h, k))
  {
    OddIsRemainder(k);
  }

  lemma RotYScale(s: Vec3, h: Vec3, k: int)
    ensures RotY(Mul(s, h), k) == Mul(PermY(s, k), RotY(h, k))
  {
    OddIsRemainder(k);
  }

  lemma RotXScale(s: Vec3, h: Vec3, k: int)
    ensures RotX(Mul(s, h), k) == Mul(PermX(s, k), RotX(h, k))
  {
    OddIsRemainder(k);
  }

  /** A quarter-turn rotation maps a component-wise scaled vector to the
      rotated vector scaled by the permuted factors. With sign factors this
      says where each corner of a box goes. */
  lemma RotateScale(s: Vec3, h: Vec3, r: Rot3)
    ensures Rotate(Mul(s, h), r) == Mul(AxisPermutation(s, r), Rotate(h, r))
  {
    RotZScale(s, h, r.z);
    RotYScale(PermZ(s, r.z), RotZ(h, r.z), r.y);
    RotXScale(PermY(PermZ(s, r.z), r.y), RotY(RotZ(h, r.z), r.y), r.x);
  }

  lemma AbsRotZ(h: Vec3, k: int)
    ensures AbsVec(RotZ(h, k)) == PermZ(AbsVec(h), k)
  {
    OddIsRemainder(k);
  }

  lemma AbsRotY(h: Vec3, k: int)
    ensures AbsVec(RotY(h, k)) == PermY(AbsVec(h), k)
  {
    OddIsRemainder(k);
  }

  lemma AbsRotX(h: Vec3, k: int)
    ensures AbsVec(RotX(h, k)) == PermX(AbsVec(h), k)
  {
    OddIsRemainder(k);
  }

  /** A quarter-turn rotation permutes the magnitudes of a vector's
      components and never changes them. */
  lemma AbsRotate(h: Vec3, r: Rot3)
    ensures AbsVec(Rotate(h, r)) == AxisPermutation(AbsVec(h), r)
    ensures Components(AbsVec(Rotate(h, r))) == Components(AbsVec(h))
  {
    AbsRotZ(h, r.z);
    AbsRotY(RotZ(h, r.z), r.y);
    AbsRotX(RotY(RotZ(h, r.z), r.y), r.x);
    AxisPermutationPermutes(AbsVec(h), r);
  }

  /** A quarter-turn rotation keeps a lower bound on every half-extent. */
  lemma AbsRotateAtLeast(h: Vec3, r: Rot3, m: real)
    requires Abs(h.x) >= m && Abs(h.y) >= m && Abs(h.z) >= m
    ensures var e := AbsVec(Rotate(h, r)); e.x >= m && e.y >= m && e.z >= m
  {
    AbsRotate(h, r);
    var a := AbsVec(h);
    var e := AxisPermutation(a, r);
    assert e.x in {a.x, a.y, a.z} && e.y in {a.x, a.y, a.z} && e.z in {a.x, a.y, a.z};
  }

  /** Every component is +1 or -1. */
  predicate IsSign(s: Vec3)
  {
    (s.x == 1.0 || s.x == -1.0) && (s.y == 1.0 || s.y == -1.0) && (s.z == 1.0 || s.z == -1.0)
  }

  /** The rotation of a negated vector is the negated rotation. */
  lemma RotateNegate(h: Vec3, r: Rot3)
    ensures Rotate(Mul(Vec3(-1.0, -1.0, -1.0), h), r) == Scale(Rotate(h, r), -1.0)
  {
    RotateScale(Vec3(-1.0, -1.0, -1.0), h, r);
  }

  /** The zero rotation is the identity. */
  lemma RotateIdentity(v: Vec3)
    ensures Rotate(v, NoRotation) == v
  {
  }

  /** Turning by k + 4 quarter turns is turning by k. */
  lemma RotateFullTurn(v: Vec3, r: Rot3, full: Rot3)
    requires full.x % 4 == 0 && full.y % 4 == 0 && full.z % 4 == 0
    ensures Rotate(v, AddRot(r, full)) == Rotate(v, r)
  {
    assert (r.x + full.x) % 4 == r.x % 4;
    assert (r.y + full.y) % 4 == r.y % 4;
    assert (r.z + full.z) % 4 == r.z % 4;
  }
}
