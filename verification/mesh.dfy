/** The boat mesh drawn by App: its vertex and face tables, the pitch/roll rotation of
    _rotate_vertices, and the assembly of the rotated vertices into one polygon per face.
    cos and sin are not computed here: the caller supplies them as an Angle. */
module Mesh {

  datatype Vec3 = Vec3(x: real, y: real, z: real)

  /** A 3x3 matrix given by its rows. */
  datatype Mat3 = Mat3(r0: Vec3, r1: Vec3, r2: Vec3)

  function Dot(a: Vec3, b: Vec3): real {
    a.x * b.x + a.y * b.y + a.z * b.z
  }

  function Norm2(v: Vec3): real {
    Dot(v, v)
  }

  /** m times the column vector v. */
  function Apply(m: Mat3, v: Vec3): Vec3 {
    Vec3(Dot(m.r0, v), Dot(m.r1, v), Dot(m.r2, v))
  }

  function Transpose(m: Mat3): Mat3 {
    Mat3(Vec3(m.r0.x, m.r1.x, m.r2.x),
         Vec3(m.r0.y, m.r1.y, m.r2.y),
         Vec3(m.r0.z, m.r1.z, m.r2.z))
  }

  /** The matrix product a . b, row by column (np.dot on two 3x3 arrays). */
  function Mul(a: Mat3, b: Mat3): Mat3 {
    var t := Transpose(b);
    Mat3(Apply(t, a.r0), Apply(t, a.r1), Apply(t, a.r2))
  }

  /** The cosine and sine of an angle, as the caller computed them. */
  datatype Angle = Angle(cos: real, sin: real)

  /** The angle of zero degrees. */
  const Level := Angle(1.0, 0.0)

  predicate OnUnitCircle(a: Angle) {
    a.cos * a.cos + a.sin * a.sin == 1.0
  }

  /** Rx: rotation about the X axis by the roll angle. */
  function RollMatrix(roll: Angle): Mat3 {
    Mat3(Vec3(1.0, 0.0, 0.0),
         Vec3(0.0, roll.cos, -roll.sin),
         Vec3(0.0, roll.sin, roll.cos))
  }

  /** Ry: rotation about the Y axis by the pitch angle. */
  function PitchMatrix(pitch: Angle): Mat3 {
    Mat3(Vec3(pitch.cos, 0.0, pitch.sin),
         Vec3(0.0, 1.0, 0.0),
         Vec3(-pitch.sin, 0.0, pitch.cos))
  }

  /** R, the rotation _rotate_vertices applies: roll about X first, then pitch about Y,
      written out entry by entry. */
  function Rotation(pitch: Angle, roll: Angle): Mat3 {
    Mat3(Vec3(pitch.cos, pitch.sin * roll.sin, pitch.sin * roll.cos),
         Vec3(0.0, roll.cos, -roll.sin),
         Vec3(-pitch.sin, pitch.cos * roll.sin, pitch.cos * roll.cos))
  }

  /** R is the product Ry . Rx that np.dot(Ry, Rx) computes. */
  lemma RotationIsProduct(pitch: Angle, roll: Angle)
    ensures Rotation(pitch, roll) == Mul(PitchMatrix(pitch), RollMatrix(roll))
  {
    var pc, ps, rc, rs := pitch.cos, pitch.sin, roll.cos, roll.sin;
    var t := Transpose(RollMatrix(roll));
    assert t == Mat3(Vec3(1.0, 0.0, 0.0), Vec3(0.0, rc, rs), Vec3(0.0, -rs, rc));
    assert Apply(t, Vec3(pc, 0.0, ps)) == Vec3(pc, ps * rs, ps * rc);
    assert Apply(t, Vec3(0.0, 1.0, 0.0)) == Vec3(0.0, rc, -rs);
    assert Apply(t, Vec3(-ps, 0.0, pc)) == Vec3(-ps, pc * rs, pc * rc);
  }

  /** np.dot(vertices, R.T): row i of the result is R applied to vertex i. */
  function RotateAll(vs: seq<Vec3>, m: Mat3): (r: seq<Vec3>)
    ensures |r| == |vs|
  {
    if vs == [] then [] else [Apply(m, vs[0])] + RotateAll(vs[1..], m)
  }

  /** The product applies its factors right to left. */
  lemma ApplyMul(a: Mat3, b: Mat3, v: Vec3)
    ensures Apply(Mul(a, b), v) == Apply(a, Apply(b, v))
  {
  }

  /** Each rotated vertex is the rotation of the vertex in the same place: the rows
      are neither reordered, dropped nor duplicated. */
  lemma {:induction false} RotateAllPointwise(vs: seq<Vec3>, m: Mat3)
    ensures forall i :: 0 <= i < |vs| ==> RotateAll(vs, m)[i] == Apply(m, vs[i])
  {
    if vs != [] {
      RotateAllPointwise(vs[1..], m);
      assert forall i :: 1 <= i < |vs| ==> RotateAll(vs, m)[i] == RotateAll(vs[1..], m)[i - 1];
    }
  }

  /** Rx undone by its transpose when cos^2 + sin^2 = 1. */
  lemma RollUndone(roll: Angle, v: Vec3)
    requires OnUnitCircle(roll)
    ensures Apply(Transpose(RollMatrix(roll)), Apply(RollMatrix(roll), v)) == v
  {
    var c, s := roll.cos, roll.sin;
    calc {
      c * (c * v.y - s * v.z) + s * (s * v.y + c * v.z);
      (c * c + s * s) * v.y;
    }
    calc {
      -s * (c * v.y - s * v.z) + c * (s * v.y + c * v.z);
      (c * c + s * s) * v.z;
    }
  }

  /** Ry undone by its transpose when cos^2 + sin^2 = 1. */
  lemma PitchUndone(pitch: Angle, v: Vec3)
    requires OnUnitCircle(pitch)
    ensures Apply(Transpose(PitchMatrix(pitch)), Apply(PitchMatrix(pitch), v)) == v
  {
    var c, s := pitch.cos, pitch.sin;
    calc {
      c * (c * v.x + s * v.z) - s * (-s * v.x + c * v.z);
      (c * c + s * s) * v.x;
    }
    calc {
      s * (c * v.x + s * v.z) + c * (-s * v.x + c * v.z);
      (c * c + s * s) * v.z;
    }
  }

  /** The rotation of _rotate_vertices loses nothing: undoing the pitch and then the roll
      gives back the original vertex, for every pair of true angles. */
  lemma RotationUndone(pitch: Angle, roll: Angle, v: Vec3)
    requires OnUnitCircle(pitch) && OnUnitCircle(roll)
    ensures var w := Apply(Rotation(pitch, roll), v);
            Apply(Transpose(RollMatrix(roll)), Apply(Transpose(PitchMatrix(pitch)), w)) == v
  {
    var rx, ry := RollMatrix(roll), PitchMatrix(pitch);
    RotationIsProduct(pitch, roll);
    ApplyMul(ry, rx, v);
    PitchUndone(pitch, Apply(rx, v));
    RollUndone(roll, v);
  }

  lemma RollKeepsLength(roll: Angle, v: Vec3)
    requires OnUnitCircle(roll)
    ensures Norm2(Apply(RollMatrix(roll), v)) == Norm2(v)
  {
    var c, s := roll.cos, roll.sin;
    calc {
      (c * v.y - s * v.z) * (c * v.y - s * v.z) + (s * v.y + c * v.z) * (s * v.y + c * v.z);
      (c * c + s * s) * (v.y * v.y + v.z * v.z);
    }
  }

  lemma PitchKeepsLength(pitch: Angle, v: Vec3)
    requires OnUnitCircle(pitch)
    ensures Norm2(Apply(PitchMatrix(pitch), v)) == Norm2(v)
  {
    var c, s := pitch.cos, pitch.sin;
    calc {
      (c * v.x + s * v.z) * (c * v.x + s * v.z) + (-s * v.x + c * v.z) * (-s * v.x + c * v.z);
      (c * c + s * s) * (v.x * v.x + v.z * v.z);
    }
  }

  /** Rotation keeps every vertex at the same distance from the origin. */
  lemma RotationKeepsLength(pitch: Angle, roll: Angle, v: Vec3)
    requires OnUnitCircle(pitch) && OnUnitCircle(roll)
    ensures Norm2(Apply(Rotation(pitch, roll), v)) == Norm2(v)
  {
    var rx, ry := RollMatrix(roll), PitchMatrix(pitch);
    RotationIsProduct(pitch, roll);
    ApplyMul(ry, rx, v);
    RollKeepsLength(roll, v);
    PitchKeepsLength(pitch, Apply(rx, v));
  }

  const Identity := Mat3(Vec3(1.0, 0.0, 0.0), Vec3(0.0, 1.0, 0.0), Vec3(0.0, 0.0, 1.0))

  /** With pitch and roll both zero the rotation is the identity. */
  lemma LevelIsIdentity()
    ensures Rotation(Level, Level) == Identity
  {
  }

  /** Rotating by the identity leaves the vertex table as the tables give it. */
  lemma {:induction false} RotateAllIdentity(vs: seq<Vec3>)
    ensures RotateAll(vs, Identity) == vs
  {
    if vs != [] {
      var v := vs[0];
      assert Apply(Identity, v) == v;
      RotateAllIdentity(vs[1..]);
    }
  }

  /** self.vertices: the ten corners of the boat. */
  const Vertices: seq<Vec3> := [
    Vec3(-2.0, -1.0, 0.5), Vec3(-2.0, 1.0, 0.5),
    Vec3(-1.5, -0.5, -0.5), Vec3(-1.5, 0.5, -0.5),
    Vec3(1.0, -1.0, 0.5), Vec3(1.0, 1.0, 0.5),
    Vec3(1.0, -0.5, -0.5), Vec3(1.0, 0.5, -0.5),
    Vec3(2.5, 0.0, 0.5), Vec3(2.0, 0.0, -0.5)
  ]

  /** self.faces: each face lists indices into Vertices. */
  const Faces: seq<seq<nat>> := [
    [0, 1, 3, 2], [2, 3, 7, 9, 6], [0, 2, 6, 4], [1, 5, 7, 3], [4, 6, 9],
    [4, 9, 8], [5, 8, 9], [5, 9, 7], [0, 4, 8, 5, 1]
  ]

  /** Every index of every face names one of n vertices. */
  predicate IndexesInto(faces: seq<seq<nat>>, n: nat) {
    forall i, k :: 0 <= i < |faces| && 0 <= k < |faces[i]| ==> faces[i][k] < n
  }

  /** No face names the same vertex twice. */
  predicate SimpleFaces(faces: seq<seq<nat>>) {
    forall i, k, l :: 0 <= i < |faces| && 0 <= k < l < |faces[i]| ==> faces[i][k] != faces[i][l]
  }

  /** Some face names vertex v. */
  predicate Uses(faces: seq<seq<nat>>, v: nat) {
    exists i, k :: 0 <= i < |faces| && 0 <= k < |faces[i]| && faces[i][k] == v
  }

  /** Every vertex belongs to some face. */
  predicate Covers(faces: seq<seq<nat>>, n: nat) {
    forall v: nat :: v < n ==> Uses(faces, v)
  }

  /** The tables are consistent: nine polygons of at least three distinct corners each,
      every index inside the vertex table, and no corner left unused. */
  lemma TablesConsistent()
    ensures |Vertices| == 10 && |Faces| == 9
    ensures IndexesInto(Faces, |Vertices|)
    ensures SimpleFaces(Faces)
    ensures forall i :: 0 <= i < |Faces| ==> 3 <= |Faces[i]| <= 5
    ensures Covers(Faces, |Vertices|)
  {
    assert Faces[0][0] == 0 && Faces[0][1] == 1 && Faces[0][2] == 3 && Faces[0][3] == 2;
    assert Faces[1][3] == 9 && Faces[1][4] == 6 && Faces[0][3] == 2;
    assert Faces[2][3] == 4 && Faces[3][1] == 5 && Faces[1][2] == 7 && Faces[5][2] == 8;
  }

  /** poly3d: for each face, the rotated vertices it names, in the face's order. */
  function Polygons(points: seq<Vec3>, faces: seq<seq<nat>>): (r: seq<seq<Vec3>>)
    requires IndexesInto(faces, |points|)
    ensures |r| == |faces|
    ensures forall i :: 0 <= i < |faces| ==> |r[i]| == |faces[i]|
  {
    seq(|faces|, i requires 0 <= i < |faces| =>
      seq(|faces[i]|, k requires 0 <= k < |faces[i]| => points[faces[i][k]]))
  }

  /** Polygon i, corner k is the vertex the face table names there. */
  lemma PolygonCorner(points: seq<Vec3>, faces: seq<seq<nat>>, i: nat, k: nat)
    requires IndexesInto(faces, |points|)
    requires i < |faces| && k < |faces[i]|
    ensures Polygons(points, faces)[i][k] == points[faces[i][k]]
  {
  }

  /** Assembling the faces commutes with rotation: rotating the vertex table and then
      cutting it into faces gives the faces of the unrotated boat, each corner rotated. */
  lemma PolygonsOfRotated(vs: seq<Vec3>, faces: seq<seq<nat>>, m: Mat3)
    requires IndexesInto(faces, |vs|)
    ensures var rotated := RotateAll(vs, m);
            var before := Polygons(vs, faces);
            var after := Polygons(rotated, faces);
            forall i, k :: 0 <= i < |faces| && 0 <= k < |faces[i]| ==>
              after[i][k] == Apply(m, before[i][k])
  {
    RotateAllPointwise(vs, m);
  }
}
