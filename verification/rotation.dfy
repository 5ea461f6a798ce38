/** Rotation of an image footprint about its centre (place/rotation.py):
    3x3 matrices built from nine coefficients or from omega/phi/kappa angles,
    rotation of one offset point, and rotation of the four footprint corners.
    Arithmetic is exact over `real`; `sin` and `cos` are parameters. */
module Rotation {
  import opened Common

  datatype Vec3 = Vec3(x: real, y: real, z: real)

  /** A 3x3 matrix, stored row by row. */
  datatype Mat3 = Mat3(r0: Vec3, r1: Vec3, r2: Vec3)

  /** The sine and cosine the OPK construction calls; uninterpreted here. */
  datatype Trig = Trig(sin: real -> real, cos: real -> real)

  function Component(v: Vec3, j: nat): real
    requires j < 3
  {
    if j == 0 then v.x else if j == 1 then v.y else v.z
  }

  function Row(m: Mat3, i: nat): Vec3
    requires i < 3
  {
    if i == 0 then m.r0 else if i == 1 then m.r1 else m.r2
  }

  function Entry(m: Mat3, i: nat, j: nat): real
    requires i < 3 && j < 3
  {
    Component(Row(m, i), j)
  }

  function Column(m: Mat3, j: nat): Vec3
    requires j < 3
  {
    Vec3(Entry(m, 0, j), Entry(m, 1, j), Entry(m, 2, j))
  }

  function Dot(a: Vec3, b: Vec3): real {
    a.x * b.x + a.y * b.y + a.z * b.z
  }

  function Neg(v: Vec3): Vec3 {
    Vec3(-v.x, -v.y, -v.z)
  }

  /** `m.dot(v)` for a 3x3 matrix and a 3-vector. */
  function MatVec(m: Mat3, v: Vec3): Vec3 {
    Vec3(Dot(m.r0, v), Dot(m.r1, v), Dot(m.r2, v))
  }

  /** The product `a * b` of two `np.matrix` values. */
  function MatMul(a: Mat3, b: Mat3): Mat3 {
    Mat3(
      Vec3(Dot(a.r0, Column(b, 0)), Dot(a.r0, Column(b, 1)), Dot(a.r0, Column(b, 2))),
      Vec3(Dot(a.r1, Column(b, 0)), Dot(a.r1, Column(b, 1)), Dot(a.r1, Column(b, 2))),
      Vec3(Dot(a.r2, Column(b, 0)), Dot(a.r2, Column(b, 1)), Dot(a.r2, Column(b, 2))))
  }

  const Identity: Mat3 := Mat3(Vec3(1.0, 0.0, 0.0), Vec3(0.0, 1.0, 0.0), Vec3(0.0, 0.0, 1.0))

  /** The nine entries of a matrix, row by row. */
  function Elements(m: Mat3): seq<real> {
    [m.r0.x, m.r0.y, m.r0.z, m.r1.x, m.r1.y, m.r1.z, m.r2.x, m.r2.y, m.r2.z]
  }

  /** `flatten`: concatenate a list of lists, keeping order. */
  function Flatten<T>(xss: seq<seq<T>>): (r: seq<T>)
    ensures |r| == TotalLength(xss)
    ensures forall i, j :: 0 <= i < |xss| && 0 <= j < |xss[i]| ==> xss[i][j] in r
  {
    if |xss| == 0 then [] else xss[0] + Flatten(xss[1..])
  }

  function TotalLength<T>(xss: seq<seq<T>>): nat {
    if |xss| == 0 then 0 else |xss[0]| + TotalLength(xss[1..])
  }

  lemma {:induction false} FlattenAppend<T>(a: seq<seq<T>>, b: seq<seq<T>>)
    ensures Flatten(a + b) == Flatten(a) + Flatten(b)
  {
    if |a| > 0 {
      assert (a + b)[1..] == a[1..] + b;
      FlattenAppend(a[1..], b);
    } else {
      assert a + b == b;
    }
  }

  /** `construct_rotation_matrix`: lay nine coefficients out row-major.
      The command-line driver asserts there are exactly nine. */
  function ConstructRotationMatrix(elements: seq<real>): (m: Mat3)
    requires |elements| == 9
    ensures forall i, j :: 0 <= i < 3 && 0 <= j < 3 ==> Entry(m, i, j) == elements[3 * i + j]
    ensures Elements(m) == elements
  {
    Mat3(
      Vec3(elements[0], elements[1], elements[2]),
      Vec3(elements[3], elements[4], elements[5]),
      Vec3(elements[6], elements[7], elements[8]))
  }

  /** Every matrix arises from its own element list. */
  lemma ConstructFromElements(m: Mat3)
    ensures ConstructRotationMatrix(Elements(m)) == m
  {
  }

  function RotationX(t: Trig, omega: real): Mat3 {
    Mat3(
      Vec3(1.0, 0.0, 0.0),
      Vec3(0.0, t.cos(omega), -t.sin(omega)),
      Vec3(0.0, t.sin(omega), t.cos(omega)))
  }

  function RotationY(t: Trig, phi: real): Mat3 {
    Mat3(
      Vec3(t.cos(phi), 0.0, t.sin(phi)),
      Vec3(0.0, 1.0, 0.0),
      Vec3(-t.sin(phi), 0.0, t.cos(phi)))
  }

  function RotationZ(t: Trig, kappa: real): Mat3 {
    Mat3(
      Vec3(t.cos(kappa), -t.sin(kappa), 0.0),
      Vec3(t.sin(kappa), t.cos(kappa), 0.0),
      Vec3(0.0, 0.0, 1.0))
  }

  /** `construct_rotation_matrix_opk`: Rx(omega) * Ry(phi) * Rz(kappa). */
  function ConstructRotationMatrixOpk(t: Trig, omega: real, phi: real, kappa: real): Mat3 {
    MatMul(MatMul(RotationX(t, omega), RotationY(t, phi)), RotationZ(t, kappa))
  }

  /** Applying a product applies the right factor first. */
  lemma MatVecMul(a: Mat3, b: Mat3, v: Vec3)
    ensures MatVec(MatMul(a, b), v) == MatVec(a, MatVec(b, v))
  {
    var p := MatVec(MatMul(a, b), v);
    var q := MatVec(a, MatVec(b, v));
    assert p.x == q.x;
    assert p.y == q.y;
    assert p.z == q.z;
  }

  /** The OPK matrix rotates about z by kappa, then about y by phi, then
      about x by omega. */
  lemma OpkComposition(t: Trig, omega: real, phi: real, kappa: real, v: Vec3)
    ensures MatVec(ConstructRotationMatrixOpk(t, omega, phi, kappa), v)
         == MatVec(RotationX(t, omega), MatVec(RotationY(t, phi), MatVec(RotationZ(t, kappa), v)))
  {
    var rx := RotationX(t, omega);
    var ry := RotationY(t, phi);
    var rz := RotationZ(t, kappa);
    MatVecMul(MatMul(rx, ry), rz, v);
    MatVecMul(rx, ry, MatVec(rz, v));
  }

  /** With sin 0 = 0 and cos 0 = 1, the zero angles give the identity. */
  lemma OpkZeroIsIdentity(t: Trig)
    requires t.sin(0.0) == 0.0 && t.cos(0.0) == 1.0
    ensures ConstructRotationMatrixOpk(t, 0.0, 0.0, 0.0) == Identity
  {
    assert RotationX(t, 0.0) == Identity;
    assert RotationY(t, 0.0) == Identity;
    assert RotationZ(t, 0.0) == Identity;
    IdentityNeutral(Identity);
  }

  lemma IdentityNeutral(m: Mat3)
    ensures MatMul(Identity, m) == m
  {
  }

  /** `_rotate_point`: rotate the offset, then shift the first component by
      the latitude and the second by the longitude; the third stays the
      rotated, unshifted z. */
  function RotatePoint(point: Vec3, m: Mat3, latitude: real, longitude: real): (r: Vec3)
    ensures r.x - latitude == Dot(m.r0, point)
    ensures r.y - longitude == Dot(m.r1, point)
    ensures r.z == Dot(m.r2, point)
  {
    var rotated := MatVec(m, point);
    Vec3(latitude + rotated.x, longitude + rotated.y, rotated.z)
  }

  /** Rotation is linear, so opposite offsets land point-symmetrically
      about the centre. */
  lemma RotatePointOpposite(p: Vec3, m: Mat3, latitude: real, longitude: real)
    ensures RotatePoint(p, m, latitude, longitude).x + RotatePoint(Neg(p), m, latitude, longitude).x == 2.0 * latitude
    ensures RotatePoint(p, m, latitude, longitude).y + RotatePoint(Neg(p), m, latitude, longitude).y == 2.0 * longitude
    ensures RotatePoint(p, m, latitude, longitude).z + RotatePoint(Neg(p), m, latitude, longitude).z == 0.0
  {
  }

  /** The 3x1 column `reshape((3, 1))` produces, as nested lists. */
  function ColumnList(v: Vec3): seq<seq<real>> {
    [[v.x], [v.y], [v.z]]
  }

  /** `flatten(point.tolist()[:2])`: the shifted latitude and longitude. */
  function LatLng(v: Vec3): (r: seq<real>)
    ensures r == [v.x, v.y]
  {
    var firstTwo := ColumnList(v)[..2];
    assert firstTwo == [[v.x], [v.y]];
    assert firstTwo[1..] == [[v.y]] && firstTwo[1..][1..] == [];
    assert Flatten(firstTwo[1..]) == [v.y] + Flatten(firstTwo[1..][1..]);
    Flatten(firstTwo)
  }

  /** Unrotated corner offsets from the image centre. */
  function OffsetNE(latOffset: real, lngOffset: real): Vec3 { Vec3(latOffset, lngOffset, 0.0) }
  function OffsetSE(latOffset: real, lngOffset: real): Vec3 { Vec3(-latOffset, lngOffset, 0.0) }
  function OffsetSW(latOffset: real, lngOffset: real): Vec3 { Vec3(-latOffset, -lngOffset, 0.0) }
  function OffsetNW(latOffset: real, lngOffset: real): Vec3 { Vec3(latOffset, -lngOffset, 0.0) }

  /** The diagnostic entries `debug=True` adds. INPUTS is written with a
      trailing comma in the source, so it holds a one-element tuple that
      wraps the list of offsets. */
  datatype DebugInfo = DebugInfo(inputs: seq<seq<Vec3>>, outputs: seq<Vec3>)

  /** The dictionary `rotate` returns: NE/SE/SW/NW and, in debug mode,
      INPUTS/OUTPUTS. */
  datatype Rotated = Rotated(ne: seq<real>, se: seq<real>, sw: seq<real>, nw: seq<real>, debug: Option<DebugInfo>)

  predicate WellFormed(r: Rotated) {
    |r.ne| == 2 && |r.se| == 2 && |r.sw| == 2 && |r.nw| == 2
  }

  /** `rotate`: rotate the four footprint corners about the image centre. */
  function Rotate(latitude: real, longitude: real, latOffset: real, lngOffset: real, m: Mat3, debug: bool): (r: Rotated)
    ensures WellFormed(r)
    ensures r.debug.Some? <==> debug
    ensures debug ==> |r.debug.value.inputs| == 1 && |r.debug.value.inputs[0]| == 4 && |r.debug.value.outputs| == 4
  {
    var ne := OffsetNE(latOffset, lngOffset);
    var se := OffsetSE(latOffset, lngOffset);
    var sw := OffsetSW(latOffset, lngOffset);
    var nw := OffsetNW(latOffset, lngOffset);
    var neRotated := RotatePoint(ne, m, latitude, longitude);
    var seRotated := RotatePoint(se, m, latitude, longitude);
    var swRotated := RotatePoint(sw, m, latitude, longitude);
    var nwRotated := RotatePoint(nw, m, latitude, longitude);
    Rotated(
      LatLng(neRotated), LatLng(seRotated), LatLng(swRotated), LatLng(nwRotated),
      if debug then Some(DebugInfo([[ne, se, sw, nw]], [neRotated, seRotated, swRotated, nwRotated])) else None)
  }

  /** Each corner is the centre plus the first two rows of `m` applied to
      the corner's (+-latOffset, +-lngOffset, 0) offset; the third row
      never reaches the result. */
  lemma RotateCorners(latitude: real, longitude: real, latOffset: real, lngOffset: real, m: Mat3, debug: bool)
    ensures var r := Rotate(latitude, longitude, latOffset, lngOffset, m, debug);
      && r.ne[0] == latitude + m.r0.x * latOffset + m.r0.y * lngOffset
      && r.ne[1] == longitude + m.r1.x * latOffset + m.r1.y * lngOffset
      && r.se[0] == latitude - m.r0.x * latOffset + m.r0.y * lngOffset
      && r.se[1] == longitude - m.r1.x * latOffset + m.r1.y * lngOffset
      && r.sw[0] == latitude - m.r0.x * latOffset - m.r0.y * lngOffset
      && r.sw[1] == longitude - m.r1.x * latOffset - m.r1.y * lngOffset
      && r.nw[0] == latitude + m.r0.x * latOffset - m.r0.y * lngOffset
      && r.nw[1] == longitude + m.r1.x * latOffset - m.r1.y * lngOffset
  {
    var r := Rotate(latitude, longitude, latOffset, lngOffset, m, debug);
    RotatedCorner(OffsetNE(latOffset, lngOffset), m, latitude, longitude);
    RotatedCorner(OffsetSE(latOffset, lngOffset), m, latitude, longitude);
    RotatedCorner(OffsetSW(latOffset, lngOffset), m, latitude, longitude);
    RotatedCorner(OffsetNW(latOffset, lngOffset), m, latitude, longitude);
    NegatedProducts(m, latOffset, lngOffset);
  }

  /** A corner offset (a, b, 0) lands at the centre plus the first two rows
      of `m` applied to it. */
  lemma RotatedCorner(p: Vec3, m: Mat3, latitude: real, longitude: real)
    requires p.z == 0.0
    ensures var c := LatLng(RotatePoint(p, m, latitude, longitude));
      && c[0] == latitude + m.r0.x * p.x + m.r0.y * p.y
      && c[1] == longitude + m.r1.x * p.x + m.r1.y * p.y
  {
    assert m.r0.z * p.z == 0.0 && m.r1.z * p.z == 0.0;
  }

  lemma NegatedProducts(m: Mat3, a: real, b: real)
    ensures m.r0.x * -a == -(m.r0.x * a) && m.r1.x * -a == -(m.r1.x * a)
    ensures m.r0.y * -b == -(m.r0.y * b) && m.r1.y * -b == -(m.r1.y * b)
  {
  }

  /** With the identity matrix every corner is the centre plus its own
      unrotated offset. */
  lemma RotateIdentity(latitude: real, longitude: real, latOffset: real, lngOffset: real, debug: bool)
    ensures var r := Rotate(latitude, longitude, latOffset, lngOffset, Identity, debug);
      && r.ne == [latitude + latOffset, longitude + lngOffset]
      && r.se == [latitude - latOffset, longitude + lngOffset]
      && r.sw == [latitude - latOffset, longitude - lngOffset]
      && r.nw == [latitude + latOffset, longitude - lngOffset]
  {
  }

  /** For any matrix, opposite corners are point-symmetric about the centre. */
  lemma RotateSymmetric(latitude: real, longitude: real, latOffset: real, lngOffset: real, m: Mat3, debug: bool)
    ensures var r := Rotate(latitude, longitude, latOffset, lngOffset, m, debug);
      && r.ne[0] + r.sw[0] == 2.0 * latitude && r.ne[1] + r.sw[1] == 2.0 * longitude
      && r.se[0] + r.nw[0] == 2.0 * latitude && r.se[1] + r.nw[1] == 2.0 * longitude
  {
    RotatePointOpposite(OffsetNE(latOffset, lngOffset), m, latitude, longitude);
    RotatePointOpposite(OffsetSE(latOffset, lngOffset), m, latitude, longitude);
  }

  /** Debug mode only adds diagnostics: the four corners are the same. */
  lemma RotateDebugIrrelevant(latitude: real, longitude: real, latOffset: real, lngOffset: real, m: Mat3)
    ensures var a := Rotate(latitude, longitude, latOffset, lngOffset, m, true);
      var b := Rotate(latitude, longitude, latOffset, lngOffset, m, false);
      a.ne == b.ne && a.se == b.se && a.sw == b.sw && a.nw == b.nw && b.debug == None
  {
  }

  /** Rotating by `a` and then rotating the result by `b` (about the origin)
      is rotating once by `b * a`. */
  lemma RotateComposes(a: Mat3, b: Mat3, p: Vec3)
    ensures RotatePoint(RotatePoint(p, a, 0.0, 0.0), b, 0.0, 0.0) == RotatePoint(p, MatMul(b, a), 0.0, 0.0)
  {
    MatVecMul(b, a, p);
  }
}
