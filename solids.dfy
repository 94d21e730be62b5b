/**
 * The solids of Roberts/icosahedron.py: the icosahedron's twelve vertices and
 * hand-written table of twenty triangles, and the dodecahedron built as its
 * dual (one vertex per icosahedron face centroid, one pentagon per
 * icosahedron vertex with the surrounding faces ordered by an angle key).
 */
module Solids {
  import opened LinAlg
  import opened VecOps
  import opened Sorting

  /** One triangle of the face table: three 0-based vertex indices. */
  type Face3 = (int, int, int)

  /** The twenty triangles of build_icosahedron, in table order. */
  const IcosaFaces: seq<Face3> :=
    [(0, 11, 5), (0, 5, 1), (0, 1, 7), (0, 7, 10), (0, 10, 11),
     (1, 5, 9), (5, 11, 4), (11, 10, 2), (10, 7, 6), (7, 1, 8),
     (3, 9, 4), (3, 4, 2), (3, 2, 6), (3, 6, 8), (3, 8, 9),
     (4, 9, 5), (2, 4, 11), (6, 2, 10), (8, 6, 7), (9, 8, 1)]

  predicate HasCorner(f: Face3, v: int)
  {
    v == f.0 || v == f.1 || v == f.2
  }

  /** Three distinct corners, each a valid index into a list of nv vertices. */
  predicate ValidFace(f: Face3, nv: int)
  {
    0 <= f.0 < nv && 0 <= f.1 < nv && 0 <= f.2 < nv && f.0 != f.1 && f.1 != f.2 && f.0 != f.2
  }

  predicate ValidFaces(faces: seq<Face3>, nv: int)
  {
    forall i :: 0 <= i < |faces| ==> ValidFace(faces[i], nv)
  }

  /** The table entry by entry, for the finite checks below. */
  lemma IcosaFacesListedLow()
    ensures |IcosaFaces| == 20
    ensures IcosaFaces[0] == (0, 11, 5)
    ensures IcosaFaces[1] == (0, 5, 1)
    ensures IcosaFaces[2] == (0, 1, 7)
    ensures IcosaFaces[3] == (0, 7, 10)
    ensures IcosaFaces[4] == (0, 10, 11)
    ensures IcosaFaces[5] == (1, 5, 9)
    ensures IcosaFaces[6] == (5, 11, 4)
    ensures IcosaFaces[7] == (11, 10, 2)
    ensures IcosaFaces[8] == (10, 7, 6)
    ensures IcosaFaces[9] == (7, 1, 8)
  {
  }

  lemma IcosaFacesListedHigh()
    ensures |IcosaFaces| == 20
    ensures IcosaFaces[10] == (3, 9, 4)
    ensures IcosaFaces[11] == (3, 4, 2)
    ensures IcosaFaces[12] == (3, 2, 6)
    ensures IcosaFaces[13] == (3, 6, 8)
    ensures IcosaFaces[14] == (3, 8, 9)
    ensures IcosaFaces[15] == (4, 9, 5)
    ensures IcosaFaces[16] == (2, 4, 11)
    ensures IcosaFaces[17] == (6, 2, 10)
    ensures IcosaFaces[18] == (8, 6, 7)
    ensures IcosaFaces[19] == (9, 8, 1)
  {
  }

  /** The table has 20 triangles, each with three distinct corners among the 12 vertices. */
  lemma IcosaShape()
    ensures |IcosaFaces| == 20 && ValidFaces(IcosaFaces, 12)
  {
    IcosaFacesListedLow();
    IcosaFacesListedHigh();
  }

  function CornerHit(f: Face3, v: int): int
  {
    if HasCorner(f, v) then 1 else 0
  }

  function EdgeHit(f: Face3, a: int, b: int): int
  {
    if HasCorner(f, a) && HasCorner(f, b) then 1 else 0
  }

  /** How many of the first n faces have v as a corner. */
  function FacesWith(faces: seq<Face3>, v: int, n: nat): int
    requires n <= |faces|
  {
    if n == 0 then 0 else FacesWith(faces, v, n - 1) + CornerHit(faces[n - 1], v)
  }

  /** How many of the first n faces have both a and b as corners. */
  function FacesWithEdge(faces: seq<Face3>, a: int, b: int, n: nat): int
    requires n <= |faces|
  {
    if n == 0 then 0 else FacesWithEdge(faces, a, b, n - 1) + EdgeHit(faces[n - 1], a, b)
  }

  lemma FacesWithUnroll5(faces: seq<Face3>, v: int, n: nat)
    requires n + 5 <= |faces|
    ensures FacesWith(faces, v, n + 5) == FacesWith(faces, v, n)
      + CornerHit(faces[n], v) + CornerHit(faces[n + 1], v) + CornerHit(faces[n + 2], v)
      + CornerHit(faces[n + 3], v) + CornerHit(faces[n + 4], v)
  {
    assert FacesWith(faces, v, n + 2) == FacesWith(faces, v, n + 1) + CornerHit(faces[n + 1], v);
    assert FacesWith(faces, v, n + 4) == FacesWith(faces, v, n + 3) + CornerHit(faces[n + 3], v);
  }

  lemma FacesWithEdgeUnroll5(faces: seq<Face3>, a: int, b: int, n: nat)
    requires n + 5 <= |faces|
    ensures FacesWithEdge(faces, a, b, n + 5) == FacesWithEdge(faces, a, b, n)
      + EdgeHit(faces[n], a, b) + EdgeHit(faces[n + 1], a, b) + EdgeHit(faces[n + 2], a, b)
      + EdgeHit(faces[n + 3], a, b) + EdgeHit(faces[n + 4], a, b)
  {
    assert FacesWithEdge(faces, a, b, n + 2) == FacesWithEdge(faces, a, b, n + 1) + EdgeHit(faces[n + 1], a, b);
    assert FacesWithEdge(faces, a, b, n + 4) == FacesWithEdge(faces, a, b, n + 3) + EdgeHit(faces[n + 3], a, b);
  }

  /** Over a table of twenty faces, the vertex count is the sum of the twenty hits. */
  lemma FacesWithTwenty(faces: seq<Face3>, v: int)
    requires |faces| == 20
    ensures FacesWith(faces, v, 20) == CornerHit(faces[0], v) + CornerHit(faces[1], v) + CornerHit(faces[2], v) + CornerHit(faces[3], v)
      + CornerHit(faces[4], v) + CornerHit(faces[5], v) + CornerHit(faces[6], v) + CornerHit(faces[7], v)
      + CornerHit(faces[8], v) + CornerHit(faces[9], v) + CornerHit(faces[10], v) + CornerHit(faces[11], v)
      + CornerHit(faces[12], v) + CornerHit(faces[13], v) + CornerHit(faces[14], v) + CornerHit(faces[15], v)
      + CornerHit(faces[16], v) + CornerHit(faces[17], v) + CornerHit(faces[18], v) + CornerHit(faces[19], v)
  {
    FacesWithUnroll5(faces, v, 0);
    FacesWithUnroll5(faces, v, 5);
    FacesWithUnroll5(faces, v, 10);
    FacesWithUnroll5(faces, v, 15);
  }

  /** Over a table of twenty faces, the edge count is the sum of the twenty hits. */
  lemma FacesWithEdgeTwenty(faces: seq<Face3>, a: int, b: int)
    requires |faces| == 20
    ensures FacesWithEdge(faces, a, b, 20) == EdgeHit(faces[0], a, b) + EdgeHit(faces[1], a, b) + EdgeHit(faces[2], a, b) + EdgeHit(faces[3], a, b)
      + EdgeHit(faces[4], a, b) + EdgeHit(faces[5], a, b) + EdgeHit(faces[6], a, b) + EdgeHit(faces[7], a, b)
      + EdgeHit(faces[8], a, b) + EdgeHit(faces[9], a, b) + EdgeHit(faces[10], a, b) + EdgeHit(faces[11], a, b)
      + EdgeHit(faces[12], a, b) + EdgeHit(faces[13], a, b) + EdgeHit(faces[14], a, b) + EdgeHit(faces[15], a, b)
      + EdgeHit(faces[16], a, b) + EdgeHit(faces[17], a, b) + EdgeHit(faces[18], a, b) + EdgeHit(faces[19], a, b)
  {
    FacesWithEdgeUnroll5(faces, a, b, 0);
    FacesWithEdgeUnroll5(faces, a, b, 5);
    FacesWithEdgeUnroll5(faces, a, b, 10);
    FacesWithEdgeUnroll5(faces, a, b, 15);
  }

  lemma IcosaDegreesLow()
    ensures FacesWith(IcosaFaces, 0, 20) == 5
    ensures FacesWith(IcosaFaces, 1, 20) == 5
    ensures FacesWith(IcosaFaces, 2, 20) == 5
    ensures FacesWith(IcosaFaces, 3, 20) == 5
    ensures FacesWith(IcosaFaces, 4, 20) == 5
    ensures FacesWith(IcosaFaces, 5, 20) == 5
  {
    IcosaFacesListedLow();
    IcosaFacesListedHigh();
    FacesWithTwenty(IcosaFaces, 0);
    FacesWithTwenty(IcosaFaces, 1);
    FacesWithTwenty(IcosaFaces, 2);
    FacesWithTwenty(IcosaFaces, 3);
    FacesWithTwenty(IcosaFaces, 4);
    FacesWithTwenty(IcosaFaces, 5);
  }

  lemma IcosaDegreesHigh()
    ensures FacesWith(IcosaFaces, 6, 20) == 5
    ensures FacesWith(IcosaFaces, 7, 20) == 5
    ensures FacesWith(IcosaFaces, 8, 20) == 5
    ensures FacesWith(IcosaFaces, 9, 20) == 5
    ensures FacesWith(IcosaFaces, 10, 20) == 5
    ensures FacesWith(IcosaFaces, 11, 20) == 5
  {
    IcosaFacesListedLow();
    IcosaFacesListedHigh();
    FacesWithTwenty(IcosaFaces, 6);
    FacesWithTwenty(IcosaFaces, 7);
    FacesWithTwenty(IcosaFaces, 8);
    FacesWithTwenty(IcosaFaces, 9);
    FacesWithTwenty(IcosaFaces, 10);
    FacesWithTwenty(IcosaFaces, 11);
  }

  /** Every vertex index occurs in exactly five faces of the table. */
  lemma IcosaVertexDegree()
    ensures forall v :: 0 <= v < 12 ==> FacesWith(IcosaFaces, v, 20) == 5
  {
    IcosaDegreesLow();
    IcosaDegreesHigh();
    forall v | 0 <= v < 12 ensures FacesWith(IcosaFaces, v, 20) == 5 {
      assert v == 0 || v == 1 || v == 2 || v == 3 || v == 4 || v == 5
          || v == 6 || v == 7 || v == 8 || v == 9 || v == 10 || v == 11;
    }
  }

  lemma IcosaEdges1()
    ensures FacesWithEdge(IcosaFaces, 0, 1, 20) == 2
    ensures FacesWithEdge(IcosaFaces, 0, 5, 20) == 2
    ensures FacesWithEdge(IcosaFaces, 0, 7, 20) == 2
  {
    IcosaFacesListedLow();
    IcosaFacesListedHigh();
    FacesWithEdgeTwenty(IcosaFaces, 0, 1);
    FacesWithEdgeTwenty(IcosaFaces, 0, 5);
    FacesWithEdgeTwenty(IcosaFaces, 0, 7);
  }

  lemma IcosaEdges2()
    ensures FacesWithEdge(IcosaFaces, 0, 10, 20) == 2
    ensures FacesWithEdge(IcosaFaces, 0, 11, 20) == 2
    ensures FacesWithEdge(IcosaFaces, 1, 5, 20) == 2
  {
    IcosaFacesListedLow();
    IcosaFacesListedHigh();
    FacesWithEdgeTwenty(IcosaFaces, 0, 10);
    FacesWithEdgeTwenty(IcosaFaces, 0, 11);
    FacesWithEdgeTwenty(IcosaFaces, 1, 5);
  }

  lemma IcosaEdges3()
    ensures FacesWithEdge(IcosaFaces, 1, 7, 20) == 2
    ensures FacesWithEdge(IcosaFaces, 1, 8, 20) == 2
    ensures FacesWithEdge(IcosaFaces, 1, 9, 20) == 2
  {
    IcosaFacesListedLow();
    IcosaFacesListedHigh();
    FacesWithEdgeTwenty(IcosaFaces, 1, 7);
    FacesWithEdgeTwenty(IcosaFaces, 1, 8);
    FacesWithEdgeTwenty(IcosaFaces, 1, 9);
  }

  lemma IcosaEdges4()
    ensures FacesWithEdge(IcosaFaces, 2, 3, 20) == 2
    ensures FacesWithEdge(IcosaFaces, 2, 4, 20) == 2
    ensures FacesWithEdge(IcosaFaces, 2, 6, 20) == 2
  {
    IcosaFacesListedLow();
    IcosaFacesListedHigh();
    FacesWithEdgeTwenty(IcosaFaces, 2, 3);
    FacesWithEdgeTwenty(IcosaFaces, 2, 4);
    FacesWithEdgeTwenty(IcosaFaces, 2, 6);
  }

  lemma IcosaEdges5()
    ensures FacesWithEdge(IcosaFaces, 2, 10, 20) == 2
    ensures FacesWithEdge(IcosaFaces, 2, 11, 20) == 2
    ensures FacesWithEdge(IcosaFaces, 3, 4, 20) == 2
  {
    IcosaFacesListedLow();
    IcosaFacesListedHigh();
    FacesWithEdgeTwenty(IcosaFaces, 2, 10);
    FacesWithEdgeTwenty(IcosaFaces, 2, 11);
    FacesWithEdgeTwenty(IcosaFaces, 3, 4);
  }

  lemma IcosaEdges6()
    ensures FacesWithEdge(IcosaFaces, 3, 6, 20) == 2
    ensures FacesWithEdge(IcosaFaces, 3, 8, 20) == 2
    ensures FacesWithEdge(IcosaFaces, 3, 9, 20) == 2
  {
    IcosaFacesListedLow();
    IcosaFacesListedHigh();
    FacesWithEdgeTwenty(IcosaFaces, 3, 6);
    FacesWithEdgeTwenty(IcosaFaces, 3, 8);
    FacesWithEdgeTwenty(IcosaFaces, 3, 9);
  }

  lemma IcosaEdges7()
    ensures FacesWithEdge(IcosaFaces, 4, 5, 20) == 2
    ensures FacesWithEdge(IcosaFaces, 4, 9, 20) == 2
    ensures FacesWithEdge(IcosaFaces, 4, 11, 20) == 2
  {
    IcosaFacesListedLow();
    IcosaFacesListedHigh();
    FacesWithEdgeTwenty(IcosaFaces, 4, 5);
    FacesWithEdgeTwenty(IcosaFaces, 4, 9);
    FacesWithEdgeTwenty(IcosaFaces, 4, 11);
  }

  lemma IcosaEdges8()
    ensures FacesWithEdge(IcosaFaces, 5, 9, 20) == 2
    ensures FacesWithEdge(IcosaFaces, 5, 11, 20) == 2
    ensures FacesWithEdge(IcosaFaces, 6, 7, 20) == 2
  {
    IcosaFacesListedLow();
    IcosaFacesListedHigh();
    FacesWithEdgeTwenty(IcosaFaces, 5, 9);
    FacesWithEdgeTwenty(IcosaFaces, 5, 11);
    FacesWithEdgeTwenty(IcosaFaces, 6, 7);
  }

  lemma IcosaEdges9()
    ensures FacesWithEdge(IcosaFaces, 6, 8, 20) == 2
    ensures FacesWithEdge(IcosaFaces, 6, 10, 20) == 2
    ensures FacesWithEdge(IcosaFaces, 7, 8, 20) == 2
  {
    IcosaFacesListedLow();
    IcosaFacesListedHigh();
    FacesWithEdgeTwenty(IcosaFaces, 6, 8);
    FacesWithEdgeTwenty(IcosaFaces, 6, 10);
    FacesWithEdgeTwenty(IcosaFaces, 7, 8);
  }

  lemma IcosaEdges10()
    ensures FacesWithEdge(IcosaFaces, 7, 10, 20) == 2
    ensures FacesWithEdge(IcosaFaces, 8, 9, 20) == 2
    ensures FacesWithEdge(IcosaFaces, 10, 11, 20) == 2
  {
    IcosaFacesListedLow();
    IcosaFacesListedHigh();
    FacesWithEdgeTwenty(IcosaFaces, 7, 10);
    FacesWithEdgeTwenty(IcosaFaces, 8, 9);
    FacesWithEdgeTwenty(IcosaFaces, 10, 11);
  }

  lemma {:induction false} FacesWithEdgeSymmetric(faces: seq<Face3>, a: int, b: int, n: nat)
    requires n <= |faces|
    ensures FacesWithEdge(faces, a, b, n) == FacesWithEdge(faces, b, a, n)
  {
    if n > 0 {
      FacesWithEdgeSymmetric(faces, a, b, n - 1);
    }
  }

  /** The three edges of face i each lie on exactly two faces. */
  lemma IcosaFaceEdges(i: int)
    requires 0 <= i < 20
    ensures FacesWithEdge(IcosaFaces, IcosaFaces[i].0, IcosaFaces[i].1, 20) == 2
    ensures FacesWithEdge(IcosaFaces, IcosaFaces[i].1, IcosaFaces[i].2, 20) == 2
    ensures FacesWithEdge(IcosaFaces, IcosaFaces[i].0, IcosaFaces[i].2, 20) == 2
  {
    if i == 0 {
      IcosaFacesListedLow();
      IcosaEdges1();
      IcosaEdges2();
      IcosaEdges8();
      FacesWithEdgeSymmetric(IcosaFaces, 5, 11, 20);
    } else if i == 1 {
      IcosaFacesListedLow();
      IcosaEdges1();
      IcosaEdges2();
      FacesWithEdgeSymmetric(IcosaFaces, 1, 5, 20);
    } else if i == 2 {
      IcosaFacesListedLow();
      IcosaEdges1();
      IcosaEdges3();
    } else if i == 3 {
      IcosaFacesListedLow();
      IcosaEdges1();
      IcosaEdges2();
      IcosaEdges10();
    } else if i == 4 {
      IcosaFacesListedLow();
      IcosaEdges2();
      IcosaEdges10();
    } else if i == 5 {
      IcosaFacesListedLow();
      IcosaEdges2();
      IcosaEdges3();
      IcosaEdges8();
    } else if i == 6 {
      IcosaFacesListedLow();
      IcosaEdges7();
      IcosaEdges8();
      FacesWithEdgeSymmetric(IcosaFaces, 4, 11, 20);
      FacesWithEdgeSymmetric(IcosaFaces, 4, 5, 20);
    } else if i == 7 {
      IcosaFacesListedLow();
      IcosaEdges5();
      IcosaEdges10();
      FacesWithEdgeSymmetric(IcosaFaces, 10, 11, 20);
      FacesWithEdgeSymmetric(IcosaFaces, 2, 10, 20);
      FacesWithEdgeSymmetric(IcosaFaces, 2, 11, 20);
    } else if i == 8 {
      IcosaFacesListedLow();
      IcosaEdges8();
      IcosaEdges9();
      IcosaEdges10();
      FacesWithEdgeSymmetric(IcosaFaces, 7, 10, 20);
      FacesWithEdgeSymmetric(IcosaFaces, 6, 7, 20);
      FacesWithEdgeSymmetric(IcosaFaces, 6, 10, 20);
    } else if i == 9 {
      IcosaFacesListedLow();
      IcosaEdges3();
      IcosaEdges9();
      FacesWithEdgeSymmetric(IcosaFaces, 1, 7, 20);
    } else if i == 10 {
      IcosaFacesListedHigh();
      IcosaEdges5();
      IcosaEdges6();
      IcosaEdges7();
      FacesWithEdgeSymmetric(IcosaFaces, 4, 9, 20);
    } else if i == 11 {
      IcosaFacesListedHigh();
      IcosaEdges4();
      IcosaEdges5();
      FacesWithEdgeSymmetric(IcosaFaces, 2, 4, 20);
      FacesWithEdgeSymmetric(IcosaFaces, 2, 3, 20);
    } else if i == 12 {
      IcosaFacesListedHigh();
      IcosaEdges4();
      IcosaEdges6();
      FacesWithEdgeSymmetric(IcosaFaces, 2, 3, 20);
    } else if i == 13 {
      IcosaFacesListedHigh();
      IcosaEdges6();
      IcosaEdges9();
    } else if i == 14 {
      IcosaFacesListedHigh();
      IcosaEdges6();
      IcosaEdges10();
    } else if i == 15 {
      IcosaFacesListedHigh();
      IcosaEdges7();
      IcosaEdges8();
      FacesWithEdgeSymmetric(IcosaFaces, 5, 9, 20);
    } else if i == 16 {
      IcosaFacesListedHigh();
      IcosaEdges4();
      IcosaEdges5();
      IcosaEdges7();
    } else if i == 17 {
      IcosaFacesListedHigh();
      IcosaEdges4();
      IcosaEdges5();
      IcosaEdges9();
      FacesWithEdgeSymmetric(IcosaFaces, 2, 6, 20);
    } else if i == 18 {
      IcosaFacesListedHigh();
      IcosaEdges8();
      IcosaEdges9();
      FacesWithEdgeSymmetric(IcosaFaces, 6, 8, 20);
      FacesWithEdgeSymmetric(IcosaFaces, 7, 8, 20);
    } else {
      IcosaFacesListedHigh();
      IcosaEdges3();
      IcosaEdges10();
      FacesWithEdgeSymmetric(IcosaFaces, 8, 9, 20);
      FacesWithEdgeSymmetric(IcosaFaces, 1, 8, 20);
      FacesWithEdgeSymmetric(IcosaFaces, 1, 9, 20);
    }
  }

  /** Every edge of every triangle of the table lies on exactly two faces. */
  lemma IcosaEdgeDegree()
    ensures forall i :: 0 <= i < 20 ==>
      FacesWithEdge(IcosaFaces, IcosaFaces[i].0, IcosaFaces[i].1, 20) == 2 &&
      FacesWithEdge(IcosaFaces, IcosaFaces[i].1, IcosaFaces[i].2, 20) == 2 &&
      FacesWithEdge(IcosaFaces, IcosaFaces[i].0, IcosaFaces[i].2, 20) == 2
  {
    forall i | 0 <= i < 20
      ensures FacesWithEdge(IcosaFaces, IcosaFaces[i].0, IcosaFaces[i].1, 20) == 2
      ensures FacesWithEdge(IcosaFaces, IcosaFaces[i].1, IcosaFaces[i].2, 20) == 2
      ensures FacesWithEdge(IcosaFaces, IcosaFaces[i].0, IcosaFaces[i].2, 20) == 2
    {
      IcosaFaceEdges(i);
    }
  }

  // ---------------------------------------------------------------------------
  // build_icosahedron

  /** The twelve unnormalised vertices (+-1, +-phi, 0) and their cyclic shifts, in source order. */
  function CanonicalVertices(phi: real): (vs: seq<Vec3>)
    ensures |vs| == 12
  {
    [Vec3(-1.0, phi, 0.0), Vec3(1.0, phi, 0.0), Vec3(-1.0, -phi, 0.0), Vec3(1.0, -phi, 0.0),
     Vec3(0.0, -1.0, phi), Vec3(0.0, 1.0, phi), Vec3(0.0, -1.0, -phi), Vec3(0.0, 1.0, -phi),
     Vec3(phi, 0.0, -1.0), Vec3(phi, 0.0, 1.0), Vec3(-phi, 0.0, -1.0), Vec3(-phi, 0.0, 1.0)]
  }

  /** The vertex list build_icosahedron returns: each canonical vertex normalised, then scaled by radius. */
  function IcosaVertices(radius: real, lib: FloatOps): (vs: seq<Vec3>)
    ensures |vs| == 12
  {
    seq(12, i requires 0 <= i < 12 => Mul(lib.normalize(CanonicalVertices(lib.phi)[i]), radius))
  }

  /** The vertices of radius r are the unit-radius vertices scaled by r; radius 0 collapses them all to the origin. */
  lemma IcosaVerticesScale(radius: real, lib: FloatOps)
    ensures forall i :: 0 <= i < 12 ==> IcosaVertices(radius, lib)[i] == Mul(IcosaVertices(1.0, lib)[i], radius)
    ensures radius == 0.0 ==> forall i :: 0 <= i < 12 ==> IcosaVertices(radius, lib)[i] == Zero
  {
    forall i | 0 <= i < 12
      ensures IcosaVertices(radius, lib)[i] == Mul(IcosaVertices(1.0, lib)[i], radius)
    {
      var n := lib.normalize(CanonicalVertices(lib.phi)[i]);
      assert IcosaVertices(1.0, lib)[i] == Mul(n, 1.0) == n;
    }
  }

  /** build_icosahedron(radius): the loop appending each scaled vertex, and the face table. */
  method BuildIcosahedron(radius: real, lib: FloatOps) returns (vlist: seq<Vec3>, faces: seq<Face3>)
    ensures vlist == IcosaVertices(radius, lib)
    ensures faces == IcosaFaces
  {
    var verts := CanonicalVertices(lib.phi);
    vlist := [];
    for k := 0 to |verts|
      invariant vlist == IcosaVertices(radius, lib)[..k]
    {
      var nv := lib.normalize(verts[k]);
      vlist := vlist + [Mul(nv, radius)];
      assert IcosaVertices(radius, lib)[..k + 1] == IcosaVertices(radius, lib)[..k] + [IcosaVertices(radius, lib)[k]];
    }
    faces := IcosaFaces;
  }

  // ---------------------------------------------------------------------------
  // vertex_to_faces

  /** vertex_to_faces[v] after the first n faces: fi once for every corner of face fi equal to v. */
  function VertexFaces(faces: seq<Face3>, v: int, n: nat): seq<int>
    requires n <= |faces|
  {
    if n == 0 then []
    else
      var f := faces[n - 1];
      VertexFaces(faces, v, n - 1)
        + (if f.0 == v then [n - 1] else []) + (if f.1 == v then [n - 1] else []) + (if f.2 == v then [n - 1] else [])
  }

  /** fi is listed for v exactly when fi is one of the first n faces and has v as a corner. */
  lemma {:induction false} VertexFacesMembers(faces: seq<Face3>, v: int, n: nat)
    requires n <= |faces|
    ensures forall fi :: fi in VertexFaces(faces, v, n) <==> 0 <= fi < n && HasCorner(faces[fi], v)
  {
    if n > 0 {
      VertexFacesMembers(faces, v, n - 1);
    }
  }

  /** No face among the first n repeats a corner. */
  predicate DistinctCorners(faces: seq<Face3>, n: nat)
    requires n <= |faces|
  {
    forall i :: 0 <= i < n ==> faces[i].0 != faces[i].1 && faces[i].1 != faces[i].2 && faces[i].0 != faces[i].2
  }

  /** The list is in ascending face order. */
  lemma {:induction false} VertexFacesAscending(faces: seq<Face3>, v: int, n: nat)
    requires n <= |faces|
    ensures forall i, j :: 0 <= i < j < |VertexFaces(faces, v, n)| ==> VertexFaces(faces, v, n)[i] <= VertexFaces(faces, v, n)[j]
  {
    if n > 0 {
      VertexFacesAscending(faces, v, n - 1);
      VertexFacesMembers(faces, v, n - 1);
      var prev := VertexFaces(faces, v, n - 1);
      var r := VertexFaces(faces, v, n);
      assert forall k :: |prev| <= k < |r| ==> r[k] == n - 1;
      forall i, j | 0 <= i < j < |r| ensures r[i] <= r[j] {
        if j < |prev| {
          assert r[i] == prev[i] && r[j] == prev[j];
        } else if i < |prev| {
          assert r[i] == prev[i] && prev[i] in prev;
        }
      }
    }
  }

  /** When no face repeats a corner, the list is strictly ascending. */
  lemma {:induction false} VertexFacesStrict(faces: seq<Face3>, v: int, n: nat)
    requires n <= |faces| && DistinctCorners(faces, n)
    ensures forall i, j :: 0 <= i < j < |VertexFaces(faces, v, n)| ==> VertexFaces(faces, v, n)[i] < VertexFaces(faces, v, n)[j]
  {
    if n > 0 {
      VertexFacesStrict(faces, v, n - 1);
      VertexFacesMembers(faces, v, n - 1);
      var prev := VertexFaces(faces, v, n - 1);
      var r := VertexFaces(faces, v, n);
      assert |r| <= |prev| + 1;
      forall i, j | 0 <= i < j < |r| ensures r[i] < r[j] {
        if j < |prev| {
          assert r[i] == prev[i] && r[j] == prev[j];
        } else {
          assert r[i] == prev[i] && prev[i] in prev && r[j] == n - 1;
        }
      }
    }
  }

  /** When no face repeats a corner, the list has one entry per face containing v. */
  lemma {:induction false} VertexFacesLength(faces: seq<Face3>, v: int, n: nat)
    requires n <= |faces| && DistinctCorners(faces, n)
    ensures |VertexFaces(faces, v, n)| == FacesWith(faces, v, n)
  {
    if n > 0 {
      VertexFacesLength(faces, v, n - 1);
    }
  }

  /** In the icosahedron, vertex_to_faces[v] lists five faces in strictly ascending order. */
  lemma IcosaVertexFaces(v: int)
    requires 0 <= v < 12
    ensures |VertexFaces(IcosaFaces, v, 20)| == 5
    ensures forall i, j :: 0 <= i < j < 5 ==> VertexFaces(IcosaFaces, v, 20)[i] < VertexFaces(IcosaFaces, v, 20)[j]
    ensures forall fi :: fi in VertexFaces(IcosaFaces, v, 20) <==> 0 <= fi < 20 && HasCorner(IcosaFaces[fi], v)
  {
    IcosaShape();
    IcosaVertexDegree();
    VertexFacesLength(IcosaFaces, v, 20);
    VertexFacesStrict(IcosaFaces, v, 20);
    VertexFacesMembers(IcosaFaces, v, 20);
  }

  /** The whole vertex_to_faces table: one list per vertex. */
  function VertexFacesTable(faces: seq<Face3>, nv: nat): (vtf: seq<seq<int>>)
    ensures |vtf| == nv
  {
    seq(nv, v requires 0 <= v < nv => VertexFaces(faces, v, |faces|))
  }

  /** vertex_to_faces: for each face in order, append its index to the list of each of its corners. */
  method VertexToFaces(faces: seq<Face3>, nv: nat) returns (vtf: seq<seq<int>>)
    requires forall i :: 0 <= i < |faces| ==> 0 <= faces[i].0 < nv && 0 <= faces[i].1 < nv && 0 <= faces[i].2 < nv
    ensures vtf == VertexFacesTable(faces, nv)
  {
    vtf := seq(nv, _ => []);
    for fi := 0 to |faces|
      invariant |vtf| == nv
      invariant forall v :: 0 <= v < nv ==> vtf[v] == VertexFaces(faces, v, fi)
    {
      var f := faces[fi];
      vtf := vtf[f.0 := vtf[f.0] + [fi]];
      vtf := vtf[f.1 := vtf[f.1] + [fi]];
      vtf := vtf[f.2 := vtf[f.2] + [fi]];
    }
    assert forall v :: 0 <= v < nv ==> vtf[v] == VertexFacesTable(faces, nv)[v];
  }

  // ---------------------------------------------------------------------------
  // build_dodecahedron_from_icosa

  /** Every corner of every face indexes a list of nv vertices. */
  predicate CornersBelow(faces: seq<Face3>, nv: int)
  {
    forall i :: 0 <= i < |faces| ==> 0 <= faces[i].0 < nv && 0 <= faces[i].1 < nv && 0 <= faces[i].2 < nv
  }

  /** The centroid of a triangle, coordinate by coordinate: three times it is the sum of the corners. */
  function Centroid(a: Vec3, b: Vec3, c: Vec3): (m: Vec3)
    ensures Mul(m, 3.0) == Add(Add(a, b), c)
  {
    Vec3((a.x + b.x + c.x) / 3.0, (a.y + b.y + c.y) / 3.0, (a.z + b.z + c.z) / 3.0)
  }

  /** The dodecahedron's vertices: one centroid per face, in face order. */
  function FaceCentroids(verts: seq<Vec3>, faces: seq<Face3>): (cs: seq<Vec3>)
    requires CornersBelow(faces, |verts|)
    ensures |cs| == |faces|
  {
    seq(|faces|, i requires 0 <= i < |faces| => Centroid(verts[faces[i].0], verts[faces[i].1], verts[faces[i].2]))
  }

  /** Step 1 of build_dodecahedron_from_icosa: the loop appending each face's centroid. */
  method Centroids(verts: seq<Vec3>, faces: seq<Face3>) returns (cs: seq<Vec3>)
    requires CornersBelow(faces, |verts|)
    ensures cs == FaceCentroids(verts, faces)
    ensures forall i :: 0 <= i < |faces| ==>
      Mul(cs[i], 3.0) == Add(Add(verts[faces[i].0], verts[faces[i].1]), verts[faces[i].2])
  {
    cs := [];
    for i := 0 to |faces|
      invariant cs == FaceCentroids(verts, faces)[..i]
    {
      var f := faces[i];
      var a, b, c := verts[f.0], verts[f.1], verts[f.2];
      cs := cs + [Vec3((a.x + b.x + c.x) / 3.0, (a.y + b.y + c.y) / 3.0, (a.z + b.z + c.z) / 3.0)];
      assert FaceCentroids(verts, faces)[..i + 1] == FaceCentroids(verts, faces)[..i] + [FaceCentroids(verts, faces)[i]];
    }
  }

  function Abs(x: real): real
  {
    if x < 0.0 then -x else x
  }

  /**
   * The in-plane basis (u, v) at an icosahedron vertex: n is the normalised
   * vertex, the helper axis is x unless n is within |n.x| > 0.9 of it, then y.
   */
  function Basis(lib: FloatOps, vpos: Vec3): (Vec3, Vec3)
  {
    var n := lib.normalize(vpos);
    var arbitrary := if Abs(Dot(n, Vec3(1.0, 0.0, 0.0))) > 0.9 then Vec3(0.0, 1.0, 0.0) else Vec3(1.0, 0.0, 0.0);
    var u := lib.normalize(Cross(arbitrary, n));
    (u, Cross(n, u))
  }

  /** The angle of the vertex-to-centroid vector in the (u, v) plane, the sort key of the pentagon. */
  function AngleKey(lib: FloatOps, vpos: Vec3, c: Vec3): real
  {
    var (u, v) := Basis(lib, vpos);
    var vec := Sub(c, vpos);
    lib.atan2(Dot(vec, v), Dot(vec, u))
  }

  /** Every index in fis is a face of the n listed ones. */
  predicate IndicesBelow(fis: seq<int>, n: int)
  {
    forall k :: 0 <= k < |fis| ==> 0 <= fis[k] < n
  }

  /** The items list for one vertex: (angle key, face index) for each incident face, in list order. */
  function AngleItems(lib: FloatOps, vpos: Vec3, cs: seq<Vec3>, fis: seq<int>): (items: seq<Item>)
    requires IndicesBelow(fis, |cs|)
    ensures Indices(items) == fis
  {
    seq(|fis|, k requires 0 <= k < |fis| => (AngleKey(lib, vpos, cs[fis[k]]), fis[k]))
  }

  /** One pentagon, 0-based: the incident faces stably sorted by angle key. */
  function DodecaFace(lib: FloatOps, vpos: Vec3, cs: seq<Vec3>, fis: seq<int>): seq<int>
    requires IndicesBelow(fis, |cs|)
  {
    Indices(SortByKey(AngleItems(lib, vpos, cs, fis)))
  }

  /** Every item of the sorted list still carries the angle key of its own face. */
  lemma SortedItemsKeyed(lib: FloatOps, vpos: Vec3, cs: seq<Vec3>, fis: seq<int>)
    requires IndicesBelow(fis, |cs|)
    ensures forall it :: it in SortByKey(AngleItems(lib, vpos, cs, fis)) ==>
      0 <= it.1 < |cs| && it.0 == AngleKey(lib, vpos, cs[it.1])
  {
    var items := AngleItems(lib, vpos, cs, fis);
    forall it | it in SortByKey(items) ensures 0 <= it.1 < |cs| && it.0 == AngleKey(lib, vpos, cs[it.1]) {
      assert it in multiset(items);
      var k :| 0 <= k < |items| && items[k] == it;
    }
  }

  /** Along face, the angle key of each listed centroid never decreases. */
  predicate KeysNonDecreasing(lib: FloatOps, vpos: Vec3, cs: seq<Vec3>, face: seq<int>)
    requires IndicesBelow(face, |cs|)
  {
    forall i, j :: 0 <= i < j < |face| ==> AngleKey(lib, vpos, cs[face[i]]) <= AngleKey(lib, vpos, cs[face[j]])
  }

  /** Along face, centroids with equal angle keys appear in ascending index order. */
  predicate TiesAscending(lib: FloatOps, vpos: Vec3, cs: seq<Vec3>, face: seq<int>)
    requires IndicesBelow(face, |cs|)
  {
    forall i, j :: 0 <= i < j < |face| && AngleKey(lib, vpos, cs[face[i]]) == AngleKey(lib, vpos, cs[face[j]]) ==>
      face[i] < face[j]
  }

  predicate StrictlyAscending(s: seq<int>)
  {
    forall i, j :: 0 <= i < j < |s| ==> s[i] < s[j]
  }

  /**
   * The pentagon is a permutation of the incident faces, ordered by non-decreasing
   * angle key; faces with equal keys keep their ascending index order.
   */
  lemma DodecaFaceOrdered(lib: FloatOps, vpos: Vec3, cs: seq<Vec3>, fis: seq<int>)
    requires IndicesBelow(fis, |cs|)
    ensures multiset(DodecaFace(lib, vpos, cs, fis)) == multiset(fis)
    ensures IndicesBelow(DodecaFace(lib, vpos, cs, fis), |cs|)
    ensures KeysNonDecreasing(lib, vpos, cs, DodecaFace(lib, vpos, cs, fis))
    ensures StrictlyAscending(fis) ==> TiesAscending(lib, vpos, cs, DodecaFace(lib, vpos, cs, fis))
  {
    SortByKeyIndices(AngleItems(lib, vpos, cs, fis));
    DodecaFaceKeys(lib, vpos, cs, fis);
    if StrictlyAscending(fis) {
      DodecaFaceTies(lib, vpos, cs, fis);
    }
  }

  /** Each listed face is one of the centroids, and their angle keys never decrease. */
  lemma DodecaFaceKeys(lib: FloatOps, vpos: Vec3, cs: seq<Vec3>, fis: seq<int>)
    requires IndicesBelow(fis, |cs|)
    ensures IndicesBelow(DodecaFace(lib, vpos, cs, fis), |cs|)
    ensures KeysNonDecreasing(lib, vpos, cs, DodecaFace(lib, vpos, cs, fis))
  {
    var sorted := SortByKey(AngleItems(lib, vpos, cs, fis));
    var face := DodecaFace(lib, vpos, cs, fis);
    SortByKeySorted(AngleItems(lib, vpos, cs, fis));
    SortedItemsKeyed(lib, vpos, cs, fis);
    forall k | 0 <= k < |sorted| ensures 0 <= face[k] < |cs| && sorted[k].0 == AngleKey(lib, vpos, cs[face[k]]) {
      assert sorted[k] in sorted;
    }
  }

  /** Faces with equal angle keys keep the ascending order of an ascending incidence list. */
  lemma DodecaFaceTies(lib: FloatOps, vpos: Vec3, cs: seq<Vec3>, fis: seq<int>)
    requires IndicesBelow(fis, |cs|) && StrictlyAscending(fis)
    ensures IndicesBelow(DodecaFace(lib, vpos, cs, fis), |cs|)
    ensures TiesAscending(lib, vpos, cs, DodecaFace(lib, vpos, cs, fis))
  {
    var sorted := SortByKey(AngleItems(lib, vpos, cs, fis));
    var face := DodecaFace(lib, vpos, cs, fis);
    SortByKeyStable(AngleItems(lib, vpos, cs, fis));
    SortedItemsKeyed(lib, vpos, cs, fis);
    forall k | 0 <= k < |sorted| ensures 0 <= face[k] < |cs| && sorted[k].0 == AngleKey(lib, vpos, cs[face[k]]) {
      assert sorted[k] in sorted;
    }
  }

  /** A strictly ascending list holds each value at most once. */
  lemma {:induction false} AscendingCountsAtMostOne(s: seq<int>, x: int)
    requires StrictlyAscending(s)
    ensures multiset(s)[x] <= 1
    decreases |s|
  {
    if s != [] {
      var front, last := s[..|s| - 1], s[|s| - 1];
      assert s == front + [last];
      AscendingCountsAtMostOne(front, x);
    }
  }

  /** A permutation of a strictly ascending list repeats no value. */
  lemma PermutationDistinct(r: seq<int>, s: seq<int>)
    requires multiset(r) == multiset(s) && StrictlyAscending(s)
    ensures forall i, j :: 0 <= i < j < |r| ==> r[i] != r[j]
  {
    forall i, j | 0 <= i < j < |r| ensures r[i] != r[j] {
      if r[i] == r[j] {
        assert r == r[..j] + r[j..];
        assert r[i] in r[..j] && r[j] in r[j..];
        assert multiset(r)[r[i]] == multiset(r[..j])[r[i]] + multiset(r[j..])[r[i]];
        AscendingCountsAtMostOne(s, r[i]);
        assert false;
      }
    }
  }

  lemma IcosaCornersBelow()
    ensures CornersBelow(IcosaFaces, 12)
  {
    IcosaShape();
  }

  lemma IcosaVertexFacesBelow(v: int)
    ensures IndicesBelow(VertexFaces(IcosaFaces, v, 20), 20)
  {
    VertexFacesMembers(IcosaFaces, v, 20);
    assert forall k :: 0 <= k < |VertexFaces(IcosaFaces, v, 20)| ==> VertexFaces(IcosaFaces, v, 20)[k] in VertexFaces(IcosaFaces, v, 20);
  }

  /** Every index shifted up by one, for the 1-based faces of the figures. */
  function Shift(s: seq<int>): (r: seq<int>)
    ensures |r| == |s|
  {
    seq(|s|, k requires 0 <= k < |s| => s[k] + 1)
  }

  /** Every list of the table names one of n faces. */
  predicate TableBelow(vtf: seq<seq<int>>, n: int)
  {
    forall v :: 0 <= v < |vtf| ==> IndicesBelow(vtf[v], n)
  }

  lemma IcosaTableBelow()
    ensures TableBelow(VertexFacesTable(IcosaFaces, 12), 20)
  {
    forall v | 0 <= v < 12 ensures IndicesBelow(VertexFacesTable(IcosaFaces, 12)[v], 20) {
      IcosaVertexFacesBelow(v);
    }
  }

  /** Steps 3 and 4: one pentagon per vertex, then every index shifted to 1-based. */
  function Pentagons(lib: FloatOps, verts: seq<Vec3>, cs: seq<Vec3>, vtf: seq<seq<int>>): (faces: seq<seq<int>>)
    requires |vtf| <= |verts| && TableBelow(vtf, |cs|)
    ensures |faces| == |vtf|
  {
    seq(|vtf|, vi requires 0 <= vi < |vtf| => Shift(DodecaFace(lib, verts[vi], cs, vtf[vi])))
  }

  /** The twelve pentagons build_dodecahedron_from_icosa returns, 1-based. */
  function DodecaFaces(radius: real, lib: FloatOps): (faces: seq<seq<int>>)
    ensures |faces| == 12
  {
    IcosaCornersBelow();
    IcosaTableBelow();
    Pentagons(lib, IcosaVertices(radius, lib), FaceCentroids(IcosaVertices(radius, lib), IcosaFaces), VertexFacesTable(IcosaFaces, 12))
  }

  /** Undoes Shift: the 0-based indices of a 1-based face. */
  function ZeroBased(face: seq<int>): (r: seq<int>)
    ensures |r| == |face|
  {
    seq(|face|, k requires 0 <= k < |face| => face[k] - 1)
  }

  lemma ShiftRoundTrip(s: seq<int>)
    ensures ZeroBased(Shift(s)) == s
  {
  }

  /**
   * Pentagon vi lists, 1-based, each entry of vtf[vi] once: 0-based it is a
   * permutation of vtf[vi] whose angle keys never decrease, equal keys in
   * ascending index order.
   */
  lemma PentagonFacts(lib: FloatOps, verts: seq<Vec3>, cs: seq<Vec3>, vtf: seq<seq<int>>, vi: int)
    requires |vtf| <= |verts| && TableBelow(vtf, |cs|) && 0 <= vi < |vtf| && StrictlyAscending(vtf[vi])
    ensures var face := Pentagons(lib, verts, cs, vtf)[vi];
      |face| == |vtf[vi]| &&
      (forall i, j :: 0 <= i < j < |face| ==> face[i] != face[j]) &&
      (forall x :: x in face <==> x - 1 in vtf[vi]) &&
      multiset(ZeroBased(face)) == multiset(vtf[vi])
    ensures var zface := ZeroBased(Pentagons(lib, verts, cs, vtf)[vi]);
      IndicesBelow(zface, |cs|) && KeysNonDecreasing(lib, verts[vi], cs, zface) && TiesAscending(lib, verts[vi], cs, zface)
  {
    var fis := vtf[vi];
    var p := DodecaFace(lib, verts[vi], cs, fis);
    var face := Shift(p);
    assert Pentagons(lib, verts, cs, vtf)[vi] == face;
    ShiftRoundTrip(p);
    DodecaFaceOrdered(lib, verts[vi], cs, fis);
    PermutationDistinct(p, fis);
    ShiftMembers(p, fis);
  }

  /** Shifting a permutation of fis lists exactly the successors of fis's entries. */
  lemma ShiftMembers(p: seq<int>, fis: seq<int>)
    requires multiset(p) == multiset(fis)
    ensures forall x :: x in Shift(p) <==> x - 1 in fis
  {
    var face := Shift(p);
    forall x ensures x in face <==> x - 1 in fis {
      if x in face {
        var k :| 0 <= k < |face| && face[k] == x;
        assert p[k] in multiset(fis);
      }
      if x - 1 in fis {
        assert x - 1 in multiset(p);
        var k :| 0 <= k < |p| && p[k] == x - 1;
        assert face[k] == x;
      }
    }
  }

  /**
   * Pentagon vi of the dodecahedron lists the five icosahedron faces around
   * vertex vi, each once, 1-based, as a permutation of vertex_to_faces[vi]
   * ordered by angle key.
   */
  lemma DodecaFaceFacts(radius: real, lib: FloatOps, vi: int)
    requires 0 <= vi < 12
    ensures var face := DodecaFaces(radius, lib)[vi];
      |face| == 5 &&
      (forall i, j :: 0 <= i < j < 5 ==> face[i] != face[j]) &&
      (forall x :: x in face <==> 1 <= x <= 20 && HasCorner(IcosaFaces[x - 1], vi)) &&
      multiset(ZeroBased(face)) == multiset(VertexFaces(IcosaFaces, vi, 20))
    ensures CornersBelow(IcosaFaces, 12)
    ensures var iv := IcosaVertices(radius, lib);
      var cs := FaceCentroids(iv, IcosaFaces);
      var zface := ZeroBased(DodecaFaces(radius, lib)[vi]);
      IndicesBelow(zface, 20) && KeysNonDecreasing(lib, iv[vi], cs, zface) && TiesAscending(lib, iv[vi], cs, zface)
  {
    IcosaCornersBelow();
    IcosaTableBelow();
    var iv := IcosaVertices(radius, lib);
    var cs := FaceCentroids(iv, IcosaFaces);
    var vtf := VertexFacesTable(IcosaFaces, 12);
    assert vtf[vi] == VertexFaces(IcosaFaces, vi, 20);
    IcosaVertexFaces(vi);
    PentagonFacts(lib, iv, cs, vtf, vi);
  }

  /** The dodecahedron's twenty vertices: the icosahedron's face centroids. */
  function DodecaVertices(radius: real, lib: FloatOps): (verts: seq<Vec3>)
    ensures |verts| == 20
  {
    IcosaCornersBelow();
    FaceCentroids(IcosaVertices(radius, lib), IcosaFaces)
  }

  /** Dodecahedron vertex i is the centroid of icosahedron face i. */
  lemma DodecaVerticesAreCentroids(radius: real, lib: FloatOps)
    ensures CornersBelow(IcosaFaces, 12)
    ensures forall i :: 0 <= i < 20 ==>
      var iv := IcosaVertices(radius, lib);
      DodecaVertices(radius, lib)[i] == Centroid(iv[IcosaFaces[i].0], iv[IcosaFaces[i].1], iv[IcosaFaces[i].2])
  {
    IcosaCornersBelow();
  }

  /** The items loop for one vertex: (atan2(vec . v, vec . u), fi) for each incident face fi, in list order. */
  method CollectItems(lib: FloatOps, vpos: Vec3, cs: seq<Vec3>, faceIndices: seq<int>) returns (items: seq<Item>)
    requires IndicesBelow(faceIndices, |cs|)
    ensures items == AngleItems(lib, vpos, cs, faceIndices)
  {
    var (u, v) := Basis(lib, vpos);
    items := [];
    for k := 0 to |faceIndices|
      invariant items == AngleItems(lib, vpos, cs, faceIndices[..k])
    {
      var fi := faceIndices[k];
      var vec := Sub(cs[fi], vpos);
      items := items + [(lib.atan2(Dot(vec, v), Dot(vec, u)), fi)];
    }
    assert faceIndices[..|faceIndices|] == faceIndices;
  }

  /** One pentagon: the items of vertex vpos stably sorted by angle, then their face indices. */
  method OrderAround(lib: FloatOps, vpos: Vec3, cs: seq<Vec3>, faceIndices: seq<int>) returns (face: seq<int>)
    requires IndicesBelow(faceIndices, |cs|)
    ensures face == DodecaFace(lib, vpos, cs, faceIndices)
  {
    var items := CollectItems(lib, vpos, cs, faceIndices);
    var sorted := SortByKey(items);
    face := Indices(sorted);
  }

  /**
   * Steps 3 and 4 of build_dodecahedron_from_icosa: for each vertex the
   * items loop and the stable sort by angle, then the shift to 1-based indices.
   */
  method OrderPentagons(lib: FloatOps, verts: seq<Vec3>, cs: seq<Vec3>, vtf: seq<seq<int>>) returns (faces: seq<seq<int>>)
    requires |vtf| <= |verts| && TableBelow(vtf, |cs|)
    ensures faces == Pentagons(lib, verts, cs, vtf)
  {
    var dodecaFaces: seq<seq<int>> := [];
    for vi := 0 to |vtf|
      invariant |dodecaFaces| == vi
      invariant forall w :: 0 <= w < vi ==> dodecaFaces[w] == DodecaFace(lib, verts[w], cs, vtf[w])
    {
      var face := OrderAround(lib, verts[vi], cs, vtf[vi]);
      dodecaFaces := dodecaFaces + [face];
    }
    faces := seq(|dodecaFaces|, i requires 0 <= i < |dodecaFaces| => Shift(dodecaFaces[i]));
    assert forall i :: 0 <= i < |faces| ==> faces[i] == Pentagons(lib, verts, cs, vtf)[i];
  }

  /** build_dodecahedron_from_icosa(radius): the icosahedron, its centroids and vertex_to_faces, then the pentagons. */
  method BuildDodecahedron(radius: real, lib: FloatOps) returns (verts: seq<Vec3>, faces: seq<seq<int>>)
    ensures verts == DodecaVertices(radius, lib)
    ensures faces == DodecaFaces(radius, lib)
  {
    var icosaV, icosaF := BuildIcosahedron(radius, lib);
    IcosaCornersBelow();
    var centroids := Centroids(icosaV, icosaF);
    var vertexToFaces := VertexToFaces(icosaF, |icosaV|);
    IcosaTableBelow();
    faces := OrderPentagons(lib, icosaV, centroids, vertexToFaces);
    verts := centroids;
  }
}
