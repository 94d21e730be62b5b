/**
 * The Figure wrapper of Roberts/icosahedron.py, transform, and the decision
 * logic of render: the view matrix, the per-face orientation fix, the
 * visibility test and the edge segments of the visible faces. Drawing a
 * segment is recorded as its rounded endpoints instead of being painted.
 */
module Figures {
  import opened LinAlg
  import opened VecOps
  import opened Sorting
  import opened Solids

  datatype Result<T> = Ok(value: T) | Err(msg: string)

  /** A face of a figure: 1-based indices into its point list. */
  predicate FaceIndexes(face: seq<int>, nv: int)
  {
    forall k :: 0 <= k < |face| ==> 1 <= face[k] <= nv
  }

  /** What render indexes: every face has at least three corners, all valid 1-based indices. */
  predicate RenderableFaces(faces: seq<seq<int>>, nv: int)
  {
    forall i :: 0 <= i < |faces| ==> |faces[i]| >= 3 && FaceIndexes(faces[i], nv)
  }

  /** [tuple(i+1 for i in face) for face in faces]: the table's triangles as 1-based lists. */
  function OneBased(faces: seq<Face3>): (r: seq<seq<int>>)
    ensures |r| == |faces|
  {
    seq(|faces|, i requires 0 <= i < |faces| => [faces[i].0 + 1, faces[i].1 + 1, faces[i].2 + 1])
  }

  /** Figure("icosa")'s faces are the table's triangles shifted by one, each a valid triangle of 12 points. */
  lemma IcosaOneBased()
    ensures |OneBased(IcosaFaces)| == 20
    ensures RenderableFaces(OneBased(IcosaFaces), 12)
    ensures forall i :: 0 <= i < 20 ==>
      (|OneBased(IcosaFaces)[i]| == 3 &&
       ZeroBased(OneBased(IcosaFaces)[i]) == [IcosaFaces[i].0, IcosaFaces[i].1, IcosaFaces[i].2])
  {
    IcosaShape();
    forall i | 0 <= i < 20
      ensures ZeroBased(OneBased(IcosaFaces)[i]) == [IcosaFaces[i].0, IcosaFaces[i].1, IcosaFaces[i].2]
    {
    }
  }

  /** One face of Figure("dodeca"): a pentagon of indices into its 20 points. */
  lemma DodecaFaceIndexes(radius: real, lib: FloatOps, vi: int)
    requires 0 <= vi < 12
    ensures |DodecaFaces(radius, lib)[vi]| == 5 && FaceIndexes(DodecaFaces(radius, lib)[vi], 20)
  {
    var face := DodecaFaces(radius, lib)[vi];
    DodecaFaceFacts(radius, lib, vi);
    forall k | 0 <= k < 5 ensures 1 <= face[k] <= 20 {
      assert face[k] in face;
    }
  }

  /** Figure("dodeca")'s faces are pentagons of valid 1-based indices into its 20 points. */
  lemma DodecaRenderable(radius: real, lib: FloatOps)
    ensures |DodecaFaces(radius, lib)| == 12
    ensures RenderableFaces(DodecaFaces(radius, lib), 20)
    ensures forall i :: 0 <= i < 12 ==> |DodecaFaces(radius, lib)[i]| == 5
  {
    forall vi | 0 <= vi < 12 ensures |DodecaFaces(radius, lib)[vi]| == 5 && FaceIndexes(DodecaFaces(radius, lib)[vi], 20) {
      DodecaFaceIndexes(radius, lib, vi);
    }
  }

  /** A figure: its points and its faces, as render reads them. */
  class Figure {
    var points: seq<Vec3>
    var faces: seq<seq<int>>

    /** Figure() and Figure("icosa"): the icosahedron of radius 60 with 1-based faces. */
    constructor Icosa(lib: FloatOps)
      ensures points == IcosaVertices(60.0, lib)
      ensures faces == OneBased(IcosaFaces)
    {
      var verts, fs := BuildIcosahedron(60.0, lib);
      points := verts;
      faces := OneBased(fs);
    }

    /** Figure("dodeca"): the dodecahedron of radius 60, whose faces are already 1-based. */
    constructor Dodeca(lib: FloatOps)
      ensures points == DodecaVertices(60.0, lib)
      ensures faces == DodecaFaces(60.0, lib)
    {
      var verts, fs := BuildDodecahedron(60.0, lib);
      points := verts;
      faces := fs;
    }
  }

  /** Figure(which): one of the two solids, or the ValueError for any other name. */
  method NewFigure(which: string, lib: FloatOps) returns (r: Result<Figure>)
    ensures which == "icosa" ==>
      r.Ok? && fresh(r.value) && r.value.points == IcosaVertices(60.0, lib) && r.value.faces == OneBased(IcosaFaces)
    ensures which == "dodeca" ==>
      r.Ok? && fresh(r.value) && r.value.points == DodecaVertices(60.0, lib) && r.value.faces == DodecaFaces(60.0, lib)
    ensures which != "icosa" && which != "dodeca" ==> r == Err("Unknown figure: " + which)
  {
    if which == "icosa" {
      var f := new Figure.Icosa(lib);
      r := Ok(f);
    } else if which == "dodeca" {
      var f := new Figure.Dodeca(lib);
      r := Ok(f);
    } else {
      r := Err("Unknown figure: " + which);
    }
  }

  // ---------------------------------------------------------------------------
  // transform

  /** The first three components of MdotV(M, [p.x, p.y, p.z, 1]). */
  function Apply(M: seq<seq<real>>, p: Vec3): Vec3
    requires HasEntries4(M)
  {
    var r := MatVec(M, [p.x, p.y, p.z, 1.0]);
    Vec3(r[0], r[1], r[2])
  }

  /** The identity matrix leaves every point where it is. */
  lemma ApplyIdentity(p: Vec3)
    ensures Apply(Identity, p) == p
  {
    MatVecEntry(Identity, [p.x, p.y, p.z, 1.0], 0);
    MatVecEntry(Identity, [p.x, p.y, p.z, 1.0], 1);
    MatVecEntry(Identity, [p.x, p.y, p.z, 1.0], 2);
  }

  /**
   * Transforming by a product is transforming by its factors in turn when the
   * right factor is affine: dropping the fourth coordinate in between loses nothing.
   */
  lemma ApplyCompose(A: seq<seq<real>>, B: seq<seq<real>>, p: Vec3)
    requires HasEntries4(A) && HasEntries4(B) && IsAffine(B)
    ensures Apply(MatMul(A, B), p) == Apply(A, Apply(B, p))
  {
    var v := [p.x, p.y, p.z, 1.0];
    MatVecOfMatMul(A, B, v);
    AffineKeepsHomogeneous(B, v);
    var Bv := MatVec(B, v);
    assert Bv == [Bv[0], Bv[1], Bv[2], 1.0];
  }

  /** Every point transformed. */
  function TransformedPoints(M: seq<seq<real>>, pts: seq<Vec3>): (r: seq<Vec3>)
    requires HasEntries4(M)
    ensures |r| == |pts|
  {
    seq(|pts|, i requires 0 <= i < |pts| => Apply(M, pts[i]))
  }

  /**
   * transform(M, figure): a fresh default Figure() whose points are replaced
   * by the transformed copies of figure's points. Its faces stay those of the
   * icosahedron, whichever figure was passed in.
   */
  method Transform(M: seq<seq<real>>, figure: Figure, lib: FloatOps) returns (f: Figure)
    requires HasEntries4(M)
    ensures fresh(f)
    ensures f.points == TransformedPoints(M, figure.points)
    ensures f.faces == OneBased(IcosaFaces)
  {
    f := new Figure.Icosa(lib);
    f.points := figure.points;
    for i := 0 to |figure.points|
      invariant |f.points| == |figure.points|
      invariant f.faces == OneBased(IcosaFaces)
      invariant forall k :: 0 <= k < i ==> f.points[k] == Apply(M, figure.points[k])
    {
      var p := figure.points[i];
      var r := MdotV(M, [p.x, p.y, p.z, 1.0]);
      f.points := f.points[i := Vec3(r[0], r[1], r[2])];
    }
  }

  // ---------------------------------------------------------------------------
  // render: the view matrix

  function RotX(c: real, s: real): (M: seq<seq<real>>)
    ensures IsMatrix4(M)
  {
    [[1.0, 0.0, 0.0, 0.0], [0.0, c, -s, 0.0], [0.0, s, c, 0.0], [0.0, 0.0, 0.0, 1.0]]
  }

  function RotY(c: real, s: real): (M: seq<seq<real>>)
    ensures IsMatrix4(M)
  {
    [[c, 0.0, s, 0.0], [0.0, 1.0, 0.0, 0.0], [-s, 0.0, c, 0.0], [0.0, 0.0, 0.0, 1.0]]
  }

  /** Uniform scaling, then a shift by (ox, oy) in the image plane. */
  function ScaleShift(scale: real, ox: real, oy: real): (M: seq<seq<real>>)
    ensures IsMatrix4(M)
  {
    [[scale, 0.0, 0.0, ox], [0.0, scale, 0.0, oy], [0.0, 0.0, scale, 0.0], [0.0, 0.0, 0.0, 1.0]]
  }

  /** The angles of the view, 30 and 25 degrees in radians. */
  function Alpha(lib: FloatOps): real { 30.0 * lib.pi / 180.0 }

  function Beta(lib: FloatOps): real { 25.0 * lib.pi / 180.0 }

  /** Mscale * (Mry * Mrx). */
  function ViewMatrix(lib: FloatOps, scale: real, ox: real, oy: real): (M: seq<seq<real>>)
    ensures IsMatrix4(M)
  {
    MatMul(ScaleShift(scale, ox, oy),
      MatMul(RotY(lib.cos(Beta(lib)), lib.sin(Beta(lib))), RotX(lib.cos(Alpha(lib)), lib.sin(Alpha(lib)))))
  }

  /**
   * The view is affine, so transforming by it is rotating about x, then about y,
   * then scaling and shifting, one after the other.
   */
  lemma ViewMatrixAffine(lib: FloatOps, scale: real, ox: real, oy: real, p: Vec3)
    ensures IsAffine(ViewMatrix(lib, scale, ox, oy))
    ensures var rx := RotX(lib.cos(Alpha(lib)), lib.sin(Alpha(lib)));
      var ry := RotY(lib.cos(Beta(lib)), lib.sin(Beta(lib)));
      Apply(ViewMatrix(lib, scale, ox, oy), p) == Apply(ScaleShift(scale, ox, oy), Apply(ry, Apply(rx, p)))
  {
    var rx := RotX(lib.cos(Alpha(lib)), lib.sin(Alpha(lib)));
    var ry := RotY(lib.cos(Beta(lib)), lib.sin(Beta(lib)));
    var sc := ScaleShift(scale, ox, oy);
    MatMulAffine(ry, rx);
    MatMulAffine(sc, MatMul(ry, rx));
    ApplyCompose(sc, MatMul(ry, rx), p);
    ApplyCompose(ry, rx, p);
  }

  /** The view matrix as render computes it, with two calls of MdotM. */
  method ComposeView(lib: FloatOps, scale: real, ox: real, oy: real) returns (M: seq<seq<real>>)
    ensures M == ViewMatrix(lib, scale, ox, oy)
  {
    var alpha := 30.0 * lib.pi / 180.0;
    var beta := 25.0 * lib.pi / 180.0;
    var mrx := RotX(lib.cos(alpha), lib.sin(alpha));
    var mry := RotY(lib.cos(beta), lib.sin(beta));
    var mscale := ScaleShift(scale, ox, oy);
    var rot := MdotM(mry, mrx);
    M := MdotM(mscale, rot);
  }

  // ---------------------------------------------------------------------------
  // render: the orientation fix

  /** The sum of a list of points. */
  function SumPoints(pts: seq<Vec3>): Vec3
  {
    if pts == [] then Zero else Add(SumPoints(pts[..|pts| - 1]), pts[|pts| - 1])
  }

  /** (cx, cy, cz): the mean of all points. */
  function Centre(pts: seq<Vec3>): Vec3
    requires |pts| > 0
  {
    var s := SumPoints(pts);
    Vec3(s.x / |pts| as real, s.y / |pts| as real, s.z / |pts| as real)
  }

  /** The sum of the points a face lists, each looked up as index - 1. */
  function FaceSum(pts: seq<Vec3>, face: seq<int>): Vec3
    requires FaceIndexes(face, |pts|)
  {
    if face == [] then Zero else Add(FaceSum(pts, face[..|face| - 1]), pts[face[|face| - 1] - 1])
  }

  /** (fx, fy, fz): the mean of the points a face lists. */
  function FaceCenter(pts: seq<Vec3>, face: seq<int>): Vec3
    requires |face| > 0 && FaceIndexes(face, |pts|)
  {
    var s := FaceSum(pts, face);
    Vec3(s.x / |face| as real, s.y / |face| as real, s.z / |face| as real)
  }

  /** The point a face's k-th corner names. */
  function Corner(pts: seq<Vec3>, face: seq<int>, k: int): Vec3
    requires FaceIndexes(face, |pts|) && 0 <= k < |face|
  {
    pts[face[k] - 1]
  }

  /** The normal the orientation fix uses: getN(A->B, A->C) of the first three corners. */
  function OrientationNormal(pts: seq<Vec3>, face: seq<int>): Vec3
    requires |face| >= 3 && FaceIndexes(face, |pts|)
  {
    var a, b, c := Corner(pts, face, 0), Corner(pts, face, 1), Corner(pts, face, 2);
    GetN(Construct(a, b), Construct(a, c))
  }

  /** dotp: the normal against the vector from the figure's centre c to the face's centre. */
  function OrientationDot(pts: seq<Vec3>, face: seq<int>, c: Vec3): real
    requires |face| >= 3 && FaceIndexes(face, |pts|)
  {
    Dot(OrientationNormal(pts, face), Construct(c, FaceCenter(pts, face)))
  }

  /** tuple(reversed(face)). */
  function Reverse(s: seq<int>): (r: seq<int>)
    ensures |r| == |s|
    ensures forall k :: 0 <= k < |s| ==> r[k] == s[|s| - 1 - k]
  {
    if s == [] then [] else [s[|s| - 1]] + Reverse(s[..|s| - 1])
  }

  /** One face after the fix: reversed when its normal points towards the centre. */
  function FixFace(pts: seq<Vec3>, face: seq<int>, c: Vec3): seq<int>
    requires |face| >= 3 && FaceIndexes(face, |pts|)
  {
    if OrientationDot(pts, face, c) < 0.0 then Reverse(face) else face
  }

  /** fixed_faces: every face fixed against the centre of all points. */
  function FixedFaces(pts: seq<Vec3>, faces: seq<seq<int>>): (r: seq<seq<int>>)
    requires |pts| > 0 && RenderableFaces(faces, |pts|)
    ensures |r| == |faces|
  {
    seq(|faces|, i requires 0 <= i < |faces| => FixFace(pts, faces[i], Centre(pts)))
  }

  lemma {:induction false} FaceSumAppend(pts: seq<Vec3>, s: seq<int>, t: seq<int>)
    requires FaceIndexes(s, |pts|) && FaceIndexes(t, |pts|)
    ensures FaceIndexes(s + t, |pts|)
    ensures FaceSum(pts, s + t) == Add(FaceSum(pts, s), FaceSum(pts, t))
    decreases |t|
  {
    if t != [] {
      assert (s + t)[..|s + t| - 1] == s + t[..|t| - 1];
      FaceSumAppend(pts, s, t[..|t| - 1]);
    } else {
      assert s + t == s;
    }
  }

  /** Listing a face's corners backwards sums the same points. */
  lemma {:induction false} FaceSumReverse(pts: seq<Vec3>, face: seq<int>)
    requires FaceIndexes(face, |pts|)
    ensures FaceIndexes(Reverse(face), |pts|)
    ensures FaceSum(pts, Reverse(face)) == FaceSum(pts, face)
    decreases |face|
  {
    if face != [] {
      var front, last := face[..|face| - 1], face[|face| - 1];
      FaceSumReverse(pts, front);
      assert FaceSum(pts, [last]) == Add(Zero, pts[last - 1]) by {
        assert [last][..0] == [];
      }
      calc {
        FaceSum(pts, Reverse(face));
        FaceSum(pts, [last] + Reverse(front));
        { FaceSumAppend(pts, [last], Reverse(front)); }
        Add(Add(Zero, pts[last - 1]), FaceSum(pts, Reverse(front)));
        Add(Add(Zero, pts[last - 1]), FaceSum(pts, front));
        Add(FaceSum(pts, front), pts[last - 1]);
      }
    }
  }

  /** Reversing a triangle negates its orientation normal. */
  lemma ReverseTriangleNormal(pts: seq<Vec3>, face: seq<int>)
    requires |face| == 3 && FaceIndexes(face, |pts|)
    ensures OrientationNormal(pts, Reverse(face)) == Neg(OrientationNormal(pts, face))
  {
    var a, b, c := Corner(pts, face, 0), Corner(pts, face, 1), Corner(pts, face, 2);
    var r := Reverse(face);
    assert Corner(pts, r, 0) == c && Corner(pts, r, 1) == b && Corner(pts, r, 2) == a;
    TriangleNormalReversed(a, b, c);
  }

  /** The triangle (c, b, a) has the opposite normal of (a, b, c). */
  lemma TriangleNormalReversed(a: Vec3, b: Vec3, c: Vec3)
    ensures GetN(Construct(c, b), Construct(c, a)) == Neg(GetN(Construct(a, b), Construct(a, c)))
  {
    MinorNegates(a.y, a.z, b.y, b.z, c.y, c.z);
    MinorNegates(a.z, a.x, b.z, b.x, c.z, c.x);
    MinorNegates(a.x, a.y, b.x, b.y, c.x, c.y);
  }

  /** One component of the cross product changes sign when the first and last corners swap. */
  lemma MinorNegates(a1: real, a2: real, b1: real, b2: real, c1: real, c2: real)
    ensures (b1 - c1) * (a2 - c2) - (b2 - c2) * (a1 - c1) == -((b1 - a1) * (c2 - a2) - (b2 - a2) * (c1 - a1))
  {
  }

  /**
   * The fix keeps or reverses each face, reversing exactly when dotp < 0; it
   * keeps the face's centre, and for a triangle the fixed face's recomputed
   * dotp is never negative, so fixing twice changes nothing more.
   */
  lemma FixFaceOutward(pts: seq<Vec3>, face: seq<int>, c: Vec3)
    requires |face| >= 3 && FaceIndexes(face, |pts|)
    ensures FixFace(pts, face, c) == (if OrientationDot(pts, face, c) < 0.0 then Reverse(face) else face)
    ensures |FixFace(pts, face, c)| == |face| && FaceIndexes(FixFace(pts, face, c), |pts|)
    ensures multiset(FixFace(pts, face, c)) == multiset(face)
    ensures FaceCenter(pts, FixFace(pts, face, c)) == FaceCenter(pts, face)
    ensures |face| == 3 ==> OrientationDot(pts, FixFace(pts, face, c), c) >= 0.0
    ensures |face| == 3 ==> FixFace(pts, FixFace(pts, face, c), c) == FixFace(pts, face, c)
  {
    FaceSumReverse(pts, face);
    ReverseMultiset(face);
    if OrientationDot(pts, face, c) < 0.0 && |face| == 3 {
      ReverseTriangleNormal(pts, face);
      var n := OrientationNormal(pts, face);
      var v := Construct(c, FaceCenter(pts, face));
      DotLaws(n, v, v, 0.0);
      assert OrientationDot(pts, Reverse(face), c) == Dot(Neg(n), v);
    }
  }

  lemma {:induction false} ReverseMultiset(s: seq<int>)
    ensures multiset(Reverse(s)) == multiset(s)
    decreases |s|
  {
    if s != [] {
      ReverseMultiset(s[..|s| - 1]);
      assert s == s[..|s| - 1] + [s[|s| - 1]];
    }
  }

  /** When every face is a triangle, every fixed face faces away from the centre of all points. */
  lemma FixedFacesOutward(pts: seq<Vec3>, faces: seq<seq<int>>)
    requires |pts| > 0 && RenderableFaces(faces, |pts|)
    requires forall i :: 0 <= i < |faces| ==> |faces[i]| == 3
    ensures RenderableFaces(FixedFaces(pts, faces), |pts|)
    ensures forall i :: 0 <= i < |faces| ==> OrientationDot(pts, FixedFaces(pts, faces)[i], Centre(pts)) >= 0.0
  {
    forall i | 0 <= i < |faces|
      ensures |FixedFaces(pts, faces)[i]| == 3 && FaceIndexes(FixedFaces(pts, faces)[i], |pts|)
      ensures OrientationDot(pts, FixedFaces(pts, faces)[i], Centre(pts)) >= 0.0
    {
      FixFaceOutward(pts, faces[i], Centre(pts));
    }
  }

  /** The orientation fix of render: build fixed_faces in a loop, then replace the faces. */
  method FixOrientation(f: Figure)
    requires |f.points| > 0 && RenderableFaces(f.faces, |f.points|)
    modifies f
    ensures f.points == old(f.points)
    ensures f.faces == FixedFaces(old(f.points), old(f.faces))
  {
    var pts, faces := f.points, f.faces;
    var c := Centre(pts);
    var fixed: seq<seq<int>> := [];
    for i := 0 to |faces|
      invariant fixed == FixedFaces(pts, faces)[..i]
    {
      var face := faces[i];
      var n := GetN(Construct(Corner(pts, face, 0), Corner(pts, face, 1)),
                    Construct(Corner(pts, face, 0), Corner(pts, face, 2)));
      var fc := FaceCenter(pts, face);
      var dotp := n.x * (fc.x - c.x) + n.y * (fc.y - c.y) + n.z * (fc.z - c.z);
      assert dotp == OrientationDot(pts, face, c);
      if dotp < 0.0 {
        fixed := fixed + [Reverse(face)];
      } else {
        fixed := fixed + [face];
      }
      assert FixedFaces(pts, faces)[..i + 1] == FixedFaces(pts, faces)[..i] + [FixedFaces(pts, faces)[i]];
    }
    assert fixed == FixedFaces(pts, faces);
    f.faces := fixed;
  }

  // ---------------------------------------------------------------------------
  // render: visibility and edges

  /** The normal the visibility test uses: getN(p1->p3, p1->p2). */
  function VisibilityNormal(pts: seq<Vec3>, face: seq<int>): Vec3
    requires |face| >= 3 && FaceIndexes(face, |pts|)
  {
    var p1, p2, p3 := Corner(pts, face, 0), Corner(pts, face, 1), Corner(pts, face, 2);
    GetN(Construct(p1, p3), Construct(p1, p2))
  }

  /** Roberts' rule: a face is drawn when N.z > 0. */
  predicate Visible(pts: seq<Vec3>, face: seq<int>)
    requires |face| >= 3 && FaceIndexes(face, |pts|)
  {
    VisibilityNormal(pts, face).z > 0.0
  }

  /**
   * The visibility normal is the opposite of the orientation normal, so a face
   * is drawn exactly when its orientation normal has negative z.
   */
  lemma VisibilityOpposesOrientation(pts: seq<Vec3>, face: seq<int>)
    requires |face| >= 3 && FaceIndexes(face, |pts|)
    ensures VisibilityNormal(pts, face) == Neg(OrientationNormal(pts, face))
    ensures Visible(pts, face) <==> OrientationNormal(pts, face).z < 0.0
  {
    var a, b, c := Corner(pts, face, 0), Corner(pts, face, 1), Corner(pts, face, 2);
    GetNAntisymmetric(Construct(a, b), Construct(a, c));
  }

  /** One draw.line call: the rounded endpoints of a segment. */
  datatype Segment = Segment(x0: int, y0: int, x1: int, y1: int)

  function SegmentOf(lib: FloatOps, pa: Vec3, pb: Vec3): Segment
  {
    Segment(lib.round(pa.x), lib.round(pa.y), lib.round(pb.x), lib.round(pb.y))
  }

  /** (i + 1) % size: the corner after corner i, wrapping to the first after the last. */
  function Next(i: int, size: int): (j: int)
    requires 0 <= i < size
    ensures 0 <= j < size && j == (i + 1) % size
  {
    if i + 1 < size then i + 1 else 0
  }

  /** The edges of a face, corner i to corner (i + 1) % size. */
  function FaceSegments(lib: FloatOps, pts: seq<Vec3>, face: seq<int>): (segs: seq<Segment>)
    requires FaceIndexes(face, |pts|)
    ensures |segs| == |face|
  {
    seq(|face|, i requires 0 <= i < |face| =>
      SegmentOf(lib, Corner(pts, face, i), Corner(pts, face, Next(i, |face|))))
  }

  /**
   * The segments of a face start at its corners in order and form one closed
   * chain: each ends where the next begins, the last where the first begins.
   */
  lemma FaceSegmentsClosed(lib: FloatOps, pts: seq<Vec3>, face: seq<int>)
    requires FaceIndexes(face, |pts|)
    ensures forall i :: 0 <= i < |face| ==>
      FaceSegments(lib, pts, face)[i].x0 == lib.round(Corner(pts, face, i).x) &&
      FaceSegments(lib, pts, face)[i].y0 == lib.round(Corner(pts, face, i).y)
    ensures forall i :: 0 <= i < |face| ==>
      FaceSegments(lib, pts, face)[i].x1 == FaceSegments(lib, pts, face)[Next(i, |face|)].x0 &&
      FaceSegments(lib, pts, face)[i].y1 == FaceSegments(lib, pts, face)[Next(i, |face|)].y0
  {
    forall i | 0 <= i < |face|
      ensures FaceSegments(lib, pts, face)[i].x1 == FaceSegments(lib, pts, face)[Next(i, |face|)].x0
      ensures FaceSegments(lib, pts, face)[i].y1 == FaceSegments(lib, pts, face)[Next(i, |face|)].y0
    {
      assert 0 <= Next(i, |face|) < |face|;
    }
  }

  /** The segments drawn for the first n faces: all edges of each visible face, faces in order. */
  function DrawnSegments(lib: FloatOps, pts: seq<Vec3>, faces: seq<seq<int>>, n: nat): seq<Segment>
    requires RenderableFaces(faces, |pts|) && n <= |faces|
  {
    if n == 0 then
      []
    else
      DrawnSegments(lib, pts, faces, n - 1) +
      (if Visible(pts, faces[n - 1]) then FaceSegments(lib, pts, faces[n - 1]) else [])
  }

  /** How many of the first n faces are visible. */
  function VisibleCount(pts: seq<Vec3>, faces: seq<seq<int>>, n: nat): nat
    requires RenderableFaces(faces, |pts|) && n <= |faces|
  {
    if n == 0 then 0 else VisibleCount(pts, faces, n - 1) + (if Visible(pts, faces[n - 1]) then 1 else 0)
  }

  /** With triangles only, three segments are drawn per visible face and none for a hidden one. */
  lemma {:induction false} DrawnSegmentsCount(lib: FloatOps, pts: seq<Vec3>, faces: seq<seq<int>>, n: nat)
    requires RenderableFaces(faces, |pts|) && n <= |faces|
    requires forall i :: 0 <= i < |faces| ==> |faces[i]| == 3
    ensures |DrawnSegments(lib, pts, faces, n)| == 3 * VisibleCount(pts, faces, n)
  {
    if n > 0 {
      DrawnSegmentsCount(lib, pts, faces, n - 1);
    }
  }

  /** The drawing loop of render: for each face, when visible, each of its edges in turn. */
  method DrawVisible(lib: FloatOps, pts: seq<Vec3>, faces: seq<seq<int>>) returns (segs: seq<Segment>)
    requires RenderableFaces(faces, |pts|)
    ensures segs == DrawnSegments(lib, pts, faces, |faces|)
  {
    segs := [];
    for fi := 0 to |faces|
      invariant segs == DrawnSegments(lib, pts, faces, fi)
    {
      var face := faces[fi];
      var p1, p2, p3 := Corner(pts, face, 0), Corner(pts, face, 1), Corner(pts, face, 2);
      var n := GetN(Construct(p1, p3), Construct(p1, p2));
      if n.z > 0.0 {
        var size := |face|;
        var drawn: seq<Segment> := [];
        for i := 0 to size
          invariant drawn == FaceSegments(lib, pts, face)[..i]
        {
          var pa := pts[face[i] - 1];
          var pb := pts[face[Next(i, size)] - 1];
          drawn := drawn + [Segment(lib.round(pa.x), lib.round(pa.y), lib.round(pb.x), lib.round(pb.y))];
          assert FaceSegments(lib, pts, face)[..i + 1] == FaceSegments(lib, pts, face)[..i] + [FaceSegments(lib, pts, face)[i]];
        }
        assert drawn == FaceSegments(lib, pts, face);
        segs := segs + drawn;
      }
    }
  }

  /** Faces valid for nv points stay valid for more points. */
  lemma RenderableWiden(faces: seq<seq<int>>, nv: int, nv': int)
    requires RenderableFaces(faces, nv) && nv <= nv'
    ensures RenderableFaces(faces, nv')
  {
    forall i | 0 <= i < |faces| ensures FaceIndexes(faces[i], nv') {
      assert FaceIndexes(faces[i], nv);
    }
  }

  /** The orientation fix keeps every face renderable and of the same size. */
  lemma FixedFacesRenderable(pts: seq<Vec3>, faces: seq<seq<int>>)
    requires |pts| > 0 && RenderableFaces(faces, |pts|)
    ensures RenderableFaces(FixedFaces(pts, faces), |pts|)
    ensures forall i :: 0 <= i < |faces| ==> |FixedFaces(pts, faces)[i]| == |faces[i]|
  {
    forall i | 0 <= i < |faces|
      ensures |FixedFaces(pts, faces)[i]| == |faces[i]| && FaceIndexes(FixedFaces(pts, faces)[i], |pts|)
    {
      FixFaceOutward(pts, faces[i], Centre(pts));
    }
  }

  /** The points render draws: the figure's points under the view matrix. */
  function ViewPoints(lib: FloatOps, scale: real, ox: real, oy: real, figure: seq<Vec3>): (pts: seq<Vec3>)
    ensures |pts| == |figure|
  {
    TransformedPoints(ViewMatrix(lib, scale, ox, oy), figure)
  }

  /** The faces render draws from: the icosahedron's, after the orientation fix. */
  function ViewFaces(lib: FloatOps, scale: real, ox: real, oy: real, figure: seq<Vec3>): (faces: seq<seq<int>>)
    requires |figure| >= 12
    ensures |faces| == 20
    ensures RenderableFaces(faces, |figure|)
  {
    IcosaOneBased();
    RenderableWiden(OneBased(IcosaFaces), 12, |figure|);
    FixedFacesRenderable(ViewPoints(lib, scale, ox, oy, figure), OneBased(IcosaFaces));
    FixedFaces(ViewPoints(lib, scale, ox, oy, figure), OneBased(IcosaFaces))
  }

  /** Everything render draws for a figure with the given points. */
  function Rendered(lib: FloatOps, scale: real, ox: real, oy: real, figure: seq<Vec3>): seq<Segment>
    requires |figure| >= 12
  {
    var pts := ViewPoints(lib, scale, ox, oy, figure);
    DrawnSegments(lib, pts, ViewFaces(lib, scale, ox, oy, figure), 20)
  }

  /**
   * What render promises: the faces it draws from are the twenty icosahedron
   * triangles, each kept or reversed and facing away from the centre of the
   * transformed points; a face is drawn exactly when its fixed orientation
   * normal has negative z, and then as three segments.
   */
  lemma RenderedFacts(lib: FloatOps, scale: real, ox: real, oy: real, figure: seq<Vec3>)
    requires |figure| >= 12
    ensures var pts, faces := ViewPoints(lib, scale, ox, oy, figure), ViewFaces(lib, scale, ox, oy, figure);
      forall i :: 0 <= i < 20 ==>
        |faces[i]| == 3 &&
        (faces[i] == OneBased(IcosaFaces)[i] || faces[i] == Reverse(OneBased(IcosaFaces)[i])) &&
        OrientationDot(pts, faces[i], Centre(pts)) >= 0.0 &&
        (Visible(pts, faces[i]) <==> OrientationNormal(pts, faces[i]).z < 0.0)
    ensures |Rendered(lib, scale, ox, oy, figure)|
         == 3 * VisibleCount(ViewPoints(lib, scale, ox, oy, figure), ViewFaces(lib, scale, ox, oy, figure), 20)
  {
    var pts, faces := ViewPoints(lib, scale, ox, oy, figure), ViewFaces(lib, scale, ox, oy, figure);
    IcosaOneBased();
    RenderableWiden(OneBased(IcosaFaces), 12, |figure|);
    FixedFacesOutward(pts, OneBased(IcosaFaces));
    forall i | 0 <= i < 20
      ensures |faces[i]| == 3
      ensures faces[i] == OneBased(IcosaFaces)[i] || faces[i] == Reverse(OneBased(IcosaFaces)[i])
      ensures Visible(pts, faces[i]) <==> OrientationNormal(pts, faces[i]).z < 0.0
    {
      FixFaceOutward(pts, OneBased(IcosaFaces)[i], Centre(pts));
      VisibilityOpposesOrientation(pts, faces[i]);
    }
    DrawnSegmentsCount(lib, pts, faces, 20);
  }

  /**
   * render(figure) up to the image: transform by the view, fix the
   * orientation of the faces the transformed figure carries (the
   * icosahedron's), then draw the visible ones. SCALE and OFFSET are the
   * parameters scale and (ox, oy).
   */
  method Render(figure: Figure, lib: FloatOps, scale: real, ox: real, oy: real) returns (segs: seq<Segment>)
    requires |figure.points| >= 12
    ensures segs == Rendered(lib, scale, ox, oy, figure.points)
  {
    var M := ComposeView(lib, scale, ox, oy);
    var f1 := Transform(M, figure, lib);
    IcosaOneBased();
    RenderableWiden(OneBased(IcosaFaces), 12, |f1.points|);
    FixOrientation(f1);
    FixedFacesRenderable(ViewPoints(lib, scale, ox, oy, figure.points), OneBased(IcosaFaces));
    segs := DrawVisible(lib, f1.points, f1.faces);
  }
}
