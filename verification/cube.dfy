/**
  The fixed cube generator (`Cube.create`): a 24-vertex, 12-triangle cube
  with one flat normal per face, written out as literal arrays. Every array
  element is a small integer, so the model keeps them as `int`.

  The position and normal arrays are flat x, y, z, w quadruples. Here they
  are written as rows of four (one `Row` per vertex) and flattened row by
  row, which gives the same 96 numbers in the same order.
 */
module Cube {
  import opened Drawable

  /** The x, y, z, w quadruple of one vertex. */
  datatype Row = Row(x: int, y: int, z: int, w: int) {

    /** Component `j` (0 = x, 1 = y, 2 = z, 3 = w). */
    function At(j: nat): int
      requires j < 4
    {
      if j == 0 then x else if j == 1 then y else if j == 2 then z else w
    }
  }

  /** Two triangles per face, fanned from the face's first vertex; the
      arrays are written one face at a time, in the order front, back,
      right, left, top, bottom. */
  const Indices: seq<nat> :=
    [0, 1, 2, 0, 2, 3] +            // front
    [4, 5, 6, 4, 6, 7] +            // back
    [8, 9, 10, 8, 10, 11] +         // right
    [12, 13, 14, 12, 14, 15] +      // left
    [16, 17, 18, 16, 18, 19] +      // top
    [20, 21, 22, 20, 22, 23]        // bottom

  /** One normal per vertex, the same four times per face. */
  const NormalRows: seq<Row> :=
    [Row(0, 0, 1, 0), Row(0, 0, 1, 0), Row(0, 0, 1, 0), Row(0, 0, 1, 0)] +          // front
    [Row(0, 0, -1, 0), Row(0, 0, -1, 0), Row(0, 0, -1, 0), Row(0, 0, -1, 0)] +      // back
    [Row(1, 0, 0, 0), Row(1, 0, 0, 0), Row(1, 0, 0, 0), Row(1, 0, 0, 0)] +          // right
    [Row(-1, 0, 0, 0), Row(-1, 0, 0, 0), Row(-1, 0, 0, 0), Row(-1, 0, 0, 0)] +      // left
    [Row(0, 1, 0, 0), Row(0, 1, 0, 0), Row(0, 1, 0, 0), Row(0, 1, 0, 0)] +          // top
    [Row(0, -1, 0, 0), Row(0, -1, 0, 0), Row(0, -1, 0, 0), Row(0, -1, 0, 0)]        // bottom

  /** One position per vertex, four vertices per face. */
  const PositionRows: seq<Row> :=
    [Row(-1, -1, 1, 1), Row(1, -1, 1, 1), Row(1, 1, 1, 1), Row(-1, 1, 1, 1)] +      // front
    [Row(1, -1, -1, 1), Row(-1, -1, -1, 1), Row(-1, 1, -1, 1), Row(1, 1, -1, 1)] +  // back
    [Row(1, -1, 1, 1), Row(1, -1, -1, 1), Row(1, 1, -1, 1), Row(1, 1, 1, 1)] +      // right
    [Row(-1, -1, -1, 1), Row(-1, -1, 1, 1), Row(-1, 1, 1, 1), Row(-1, 1, -1, 1)] +  // left
    [Row(-1, 1, 1, 1), Row(1, 1, 1, 1), Row(1, 1, -1, 1), Row(-1, 1, -1, 1)] +      // top
    [Row(-1, -1, -1, 1), Row(1, -1, -1, 1), Row(1, -1, 1, 1), Row(-1, -1, 1, 1)]    // bottom

  /** The rows written out one after another, x, y, z, w each. */
  function Flatten(rows: seq<Row>): (a: seq<int>)
    ensures |a| == 4 * |rows|
    ensures forall v, j :: 0 <= v < |rows| && 0 <= j < 4 ==> a[4 * v + j] == rows[v].At(j)
  {
    if rows == [] then []
    else
      var r := rows[|rows| - 1];
      Flatten(rows[..|rows| - 1]) + [r.x, r.y, r.z, r.w]
  }

  /** `create()`: the literal arrays, uploaded with the index count as the
      draw count. The centre the cube was constructed with is not read. */
  function Create(center: Vec3): (m: Mesh<int>)
    ensures |m.indices| == 36 && m.count == 36
    ensures |m.positions| == 96 && |m.normals| == 96
    ensures forall i :: 0 <= i < 36 ==> m.indices[i] == Indices[i]
    ensures forall v, j :: 0 <= v < 24 && 0 <= j < 4 ==>
              m.positions[4 * v + j] == PositionRows[v].At(j) && m.normals[4 * v + j] == NormalRows[v].At(j)
  {
    Upload(Indices, Flatten(PositionRows), Flatten(NormalRows))
  }

  /** 1 or -1. */
  predicate IsSign(c: int) {
    c == 1 || c == -1
  }

  /** A unit vector along one axis: exactly one of x, y, z is non-zero, and it is 1 or -1. */
  predicate IsAxisUnit(n: Row) {
    || (IsSign(n.x) && n.y == 0 && n.z == 0)
    || (n.x == 0 && IsSign(n.y) && n.z == 0)
    || (n.x == 0 && n.y == 0 && IsSign(n.z))
  }

  /** x, y, z is a corner of the cube [-1, 1]^3. */
  predicate IsCorner(p: Row) {
    IsSign(p.x) && IsSign(p.y) && IsSign(p.z)
  }

  /** The dot product of the x, y, z parts. */
  function Dot(a: Row, b: Row): int {
    a.x * b.x + a.y * b.y + a.z * b.z
  }

  /** Whether the triangle (a, b, c) turns counter-clockwise about `n`: the
      cross product of the edges b - a and c - a is 4 n, a positive multiple
      of `n` (each edge of a face is 2 long). Only x, y, z are read. */
  predicate TurnsAbout(a: Row, b: Row, c: Row, n: Row) {
    var ux, uy, uz := b.x - a.x, b.y - a.y, b.z - a.z;
    var vx, vy, vz := c.x - a.x, c.y - a.y, c.z - a.z;
    && uy * vz - uz * vy == 4 * n.x
    && uz * vx - ux * vz == 4 * n.y
    && ux * vy - uy * vx == 4 * n.z
  }

  /** Whether the triangle of vertices a, b, c is wound counter-clockwise
      seen from outside, that is, about the normal of its first vertex. */
  predicate WoundOutward(a: nat, b: nat, c: nat)
    requires a < 24 && b < 24 && c < 24
  {
    TurnsAbout(PositionRows[a], PositionRows[b], PositionRows[c], NormalRows[a])
  }

  /** Face k (k < 6) is the two triangles (4k, 4k+1, 4k+2) and
      (4k, 4k+2, 4k+3), listed at index 6k onwards. */
  lemma FaceIndices(k: nat)
    requires k < 6
    ensures Indices[6 * k] == 4 * k && Indices[6 * k + 1] == 4 * k + 1 && Indices[6 * k + 2] == 4 * k + 2
    ensures Indices[6 * k + 3] == 4 * k && Indices[6 * k + 4] == 4 * k + 2 && Indices[6 * k + 5] == 4 * k + 3
  {
    if k == 0 {} else if k == 1 {} else if k == 2 {} else if k == 3 {} else if k == 4 {} else {}
  }

  /** Every index names one of the 24 vertices. */
  lemma IndicesInRange(i: nat)
    requires i < 36
    ensures Indices[i] < 24
  {
    FaceIndices(i / 6);
  }

  /** The normal of vertex v has w = 0, is a unit vector along one axis, and
      is the normal of the first vertex of v's face. */
  lemma NormalAt(v: nat)
    requires v < 24
    ensures NormalRows[v].w == 0 && IsAxisUnit(NormalRows[v])
    ensures NormalRows[v] == NormalRows[v - v % 4]
  {
    if v == 0 {} else if v == 1 {} else if v == 2 {} else if v == 3 {}
    else if v == 4 {} else if v == 5 {} else if v == 6 {} else if v == 7 {}
    else if v == 8 {} else if v == 9 {} else if v == 10 {} else if v == 11 {}
    else if v == 12 {} else if v == 13 {} else if v == 14 {} else if v == 15 {}
    else if v == 16 {} else if v == 17 {} else if v == 18 {} else if v == 19 {}
    else if v == 20 {} else if v == 21 {} else if v == 22 {} else {}
  }

  /** The position of vertex v has w = 1, is a corner of [-1, 1]^3, and lies
      on the plane of its face: its dot product with its normal is 1. */
  lemma PositionAt(v: nat)
    requires v < 24
    ensures PositionRows[v].w == 1 && IsCorner(PositionRows[v])
    ensures Dot(PositionRows[v], NormalRows[v]) == 1
  {
    if v == 0 {} else if v == 1 {} else if v == 2 {} else if v == 3 {}
    else if v == 4 {} else if v == 5 {} else if v == 6 {} else if v == 7 {}
    else if v == 8 {} else if v == 9 {} else if v == 10 {} else if v == 11 {}
    else if v == 12 {} else if v == 13 {} else if v == 14 {} else if v == 15 {}
    else if v == 16 {} else if v == 17 {} else if v == 18 {} else if v == 19 {}
    else if v == 20 {} else if v == 21 {} else if v == 22 {} else {}
  }

  /** The first fan triangle (4k, 4k+1, 4k+2) of face k is wound outward. */
  lemma FirstTriangleWinding(k: nat)
    requires k < 6
    ensures WoundOutward(4 * k, 4 * k + 1, 4 * k + 2)
  {
    if k == 0 {} else if k == 1 {} else if k == 2 {} else if k == 3 {} else if k == 4 {} else {}
  }

  /** The second fan triangle (4k, 4k+2, 4k+3) of face k is wound outward. */
  lemma SecondTriangleWinding(k: nat)
    requires k < 6
    ensures WoundOutward(4 * k, 4 * k + 2, 4 * k + 3)
  {
    if k == 0 {} else if k == 1 {} else if k == 2 {} else if k == 3 {} else if k == 4 {} else {}
  }

  /** Each of the 12 triangles the index array lists (triangle t is indices
      3t, 3t+1, 3t+2) is wound outward. */
  lemma OutwardWinding(t: nat)
    requires t < 12
    ensures Indices[3 * t] < 24 && Indices[3 * t + 1] < 24 && Indices[3 * t + 2] < 24
    ensures WoundOutward(Indices[3 * t], Indices[3 * t + 1], Indices[3 * t + 2])
  {
    var k := t / 2;
    FaceIndices(k);
    if t % 2 == 0 {
      assert 3 * t == 6 * k;
      assert (Indices[3 * t], Indices[3 * t + 1], Indices[3 * t + 2]) == (4 * k, 4 * k + 1, 4 * k + 2);
      FirstTriangleWinding(k);
    } else {
      assert 3 * t == 6 * k + 3;
      assert (Indices[3 * t], Indices[3 * t + 1], Indices[3 * t + 2]) == (4 * k, 4 * k + 2, 4 * k + 3);
      SecondTriangleWinding(k);
    }
  }

  /** 1 if `r` is `p`, else 0. */
  function Hit(r: Row, p: Row): nat {
    if r == p then 1 else 0
  }

  /** How many of the first `n` rows are `p`. */
  function CountAt(rows: seq<Row>, n: nat, p: Row): nat
    requires n <= |rows|
  {
    if n == 0 then 0 else CountAt(rows, n - 1, p) + Hit(rows[n - 1], p)
  }

  /** `CountAt` is the multiplicity of `p` in the multiset of the first `n` rows. */
  lemma {:induction false} CountAtIsMultiplicity(rows: seq<Row>, n: nat, p: Row)
    requires n <= |rows|
    ensures CountAt(rows, n, p) == multiset(rows[..n])[p]
  {
    if n > 0 {
      assert rows[..n] == rows[..n - 1] + [rows[n - 1]];
      CountAtIsMultiplicity(rows, n - 1, p);
    }
  }

  /** Whether `p` lies in the plane of the face whose normal is the axis unit
      `n`: on the normal's axis, `p` has the normal's coordinate. */
  predicate OnFace(p: Row, n: Row) {
    && (n.x != 0 ==> p.x == n.x)
    && (n.y != 0 ==> p.y == n.y)
    && (n.z != 0 ==> p.z == n.z)
  }

  /** Corner p is one of the four positions of face k exactly when it lies
      in that face's plane, and then only once. */
  lemma FaceCorners(k: nat, p: Row)
    requires k < 6 && IsCorner(p) && p.w == 1
    ensures Hit(PositionRows[4 * k], p) + Hit(PositionRows[4 * k + 1], p)
            + Hit(PositionRows[4 * k + 2], p) + Hit(PositionRows[4 * k + 3], p)
            == if OnFace(p, NormalRows[4 * k]) then 1 else 0
  {
    if k == 0 {} else if k == 1 {} else if k == 2 {} else if k == 3 {} else if k == 4 {} else {}
  }

  /** Counting over face k's four vertices adds 1 exactly when p lies on face k. */
  lemma FaceStep(k: nat, p: Row)
    requires k < 6 && IsCorner(p) && p.w == 1
    ensures CountAt(PositionRows, 4 * k + 4, p)
            == CountAt(PositionRows, 4 * k, p) + if OnFace(p, NormalRows[4 * k]) then 1 else 0
  {
    var c := CountAt(PositionRows, 4 * k, p);
    assert CountAt(PositionRows, 4 * k + 1, p) == c + Hit(PositionRows[4 * k], p);
    assert CountAt(PositionRows, 4 * k + 2, p) == CountAt(PositionRows, 4 * k + 1, p) + Hit(PositionRows[4 * k + 1], p);
    assert CountAt(PositionRows, 4 * k + 3, p) == CountAt(PositionRows, 4 * k + 2, p) + Hit(PositionRows[4 * k + 2], p);
    assert CountAt(PositionRows, 4 * k + 4, p) == CountAt(PositionRows, 4 * k + 3, p) + Hit(PositionRows[4 * k + 3], p);
    FaceCorners(k, p);
  }

  /** The number of faces among the first k whose plane holds p. */
  function FacesAt(p: Row, k: nat): nat
    requires k <= 6
  {
    if k == 0 then 0 else FacesAt(p, k - 1) + (if OnFace(p, NormalRows[4 * (k - 1)]) then 1 else 0)
  }

  /** Over the vertices of the first k faces, corner p occurs once per face
      whose plane holds it. */
  lemma {:induction false} CountUpToFace(k: nat, p: Row)
    requires k <= 6 && IsCorner(p) && p.w == 1
    ensures CountAt(PositionRows, 4 * k, p) == FacesAt(p, k)
  {
    if k > 0 {
      CountUpToFace(k - 1, p);
      FaceStep(k - 1, p);
    }
  }

  /** Exactly three of the six faces meet at each corner: one per axis, on
      the side of the corner's sign. */
  lemma CornerFaces(p: Row)
    requires IsCorner(p)
    ensures FacesAt(p, 6) == 3
  {
    assert NormalRows[0] == Row(0, 0, 1, 0) && NormalRows[4] == Row(0, 0, -1, 0);
    assert NormalRows[8] == Row(1, 0, 0, 0) && NormalRows[12] == Row(-1, 0, 0, 0);
    assert NormalRows[16] == Row(0, 1, 0, 0) && NormalRows[20] == Row(0, -1, 0, 0);
    assert FacesAt(p, 1) == if p.z == 1 then 1 else 0;
    assert FacesAt(p, 2) == 1;
    assert FacesAt(p, 3) == 1 + if p.x == 1 then 1 else 0;
    assert FacesAt(p, 4) == 2;
    assert FacesAt(p, 5) == 2 + if p.y == 1 then 1 else 0;
  }

  /** Each of the 8 corners of the cube, as a point with w = 1, is the
      position of exactly 3 of the 24 vertices, one for each face that meets
      there (by `CountAtIsMultiplicity`, its multiplicity in the positions). */
  lemma CornerMultiplicity(p: Row)
    requires IsCorner(p) && p.w == 1
    ensures CountAt(PositionRows, 24, p) == 3
  {
    CountUpToFace(6, p);
    CornerFaces(p);
  }

  /** The cube is the same whatever centre it was constructed with. */
  lemma CenterIgnored(c1: Vec3, c2: Vec3)
    ensures Create(c1) == Create(c2)
  {
  }
}
