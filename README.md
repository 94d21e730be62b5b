# Verified model of a wireframe renderer, two Bresenham rasterisers and an OBJ triangulator

This project models the computational core of a small graphics repository in Dafny.

- **Roberts wireframe pipeline** (`Roberts/linalg.py`, `Roberts/icosahedron.py`):
  - points and vectors, the cross product `getN`, and the 4x4 homogeneous products `MdotM` and `MdotV`;
  - the icosahedron built from its hand-written table of twenty triangles;
  - the dodecahedron built as its dual: one vertex per face centroid, and one pentagon per icosahedron vertex, ordered by a stable sort on an angle key and shifted to 1-based indices;
  - the `Figure` wrapper and `transform`;
  - the decision logic of Roberts' `render`: the view matrix, the orientation fix of every face against the centre of the figure, the `N.z > 0` visibility rule, and the closed chain of edges drawn for a visible face.
- **Bresenham line** (`Bresenham/line.py`): `draw_line` writes 1 into the traced cells of a 2D integer image, in place.
- **Bresenham circle** (`Bresenham/circle.py`): the midpoint loop of `draw_bresenham_circle`, with the eight symmetric points of `draw_circle` per state, returned as the list of plotted points.
- **OBJ fan triangulation** (`Open3D/alfa147.py`): `triangulate_obj`'s line-by-line rewrite of Wavefront OBJ face records with four or more vertex tokens into fans of triangles.

Modules, one per file:

- `LinAlg` (linalg.dfy)
- `VecOps` (vecops.dfy)
- `Sorting` (sorting.dfy): Python's stable `list.sort`
- `Solids` (solids.dfy)
- `Figures` (figures.dfy)
- `BresenhamLine` (line.dfy)
- `BresenhamCircle` (circle.dfy)
- `ObjTriangulate` (objtri.dfy)

The imperative parts of the source are methods proved against specification functions:

- the nested loops of `MdotM`/`MdotV`;
- the vertex, centroid, incidence and pentagon loops of the solids;
- `transform`'s point loop and render's loops over the faces;
- `draw_line`'s loop over a Dafny `array2`;
- the circle's `while` loop;
- the OBJ loop and its inner fan loop.

The properties the source promises are lemmas about those functions.

Coordinates are exact reals. The floating-point primitives are passed in as a `FloatOps` value whose fields the model never interprets:

- `sqrt`-based `normalize`, `phi`;
- `atan2`, `cos`, `sin`, `pi`;
- `round`.

So no property depends on rounding or on their values.

## Model

| member | source | states |
|---|---|---|
| LinAlg.Construct | Roberts/linalg.py:14-18 | the vector carries p1 onto p2; construct(p, p) is the zero vector |
| LinAlg.GetN | Roberts/linalg.py:20-23 | the normal is orthogonal to both operands |
| LinAlg.GetNAntisymmetric | Roberts/linalg.py:20-23 | getN(b, a) = -getN(a, b) and getN(a, a) = 0 |
| LinAlg.MatMulEntry | Roberts/linalg.py:25-34 | entry (i, j) of the product is the sum over k of M1[i][k] * M2[k][j] |
| LinAlg.MatVecEntry | Roberts/linalg.py:36-42 | entry i of the matrix-vector product is the sum over j of M[i][j] * V[j] |
| LinAlg.MatMul | Roberts/linalg.py:25-34 | the product is a 4x4 matrix |
| LinAlg.MatVec | Roberts/linalg.py:36-42 | the product is a 4-vector |
| LinAlg.IdentityIsUnit | Roberts/linalg.py:25-34 | the identity is a left and a right unit of the product |
| LinAlg.MatVecOfMatMul | Roberts/linalg.py:25-42 | applying MdotM(A, B) to v is applying B, then A, which justifies composing the view before transforming |
| LinAlg.AffineKeepsHomogeneous | Roberts/linalg.py:36-42 | a matrix with last row [0, 0, 0, 1] maps V[3] = 1 to R[3] = 1, so dropping the fourth component loses nothing |
| LinAlg.MatMulAffine | Roberts/linalg.py:25-34 | the product of two affine matrices is affine |
| LinAlg.MdotM | Roberts/linalg.py:25-34 | the triple loop accumulating into a zero matrix returns the matrix product |
| LinAlg.MdotV | Roberts/linalg.py:36-42 | the double loop accumulating into a zero vector returns the matrix-vector product |
| VecOps.Add | Roberts/icosahedron.py:24 | the displacement from a to add(a, b) is b |
| VecOps.Sub | Roberts/icosahedron.py:25 | sub(a, b) plus b is a, and sub(a, b) is construct(b, a) |
| VecOps.Mul | Roberts/icosahedron.py:26 | scaling by 1 is the identity and scaling by 0 gives the zero vector |
| VecOps.Dot | Roberts/icosahedron.py:27 | computes the scalar product a.x*b.x + a.y*b.y + a.z*b.z |
| VecOps.Cross | Roberts/icosahedron.py:28 | cross is linalg's getN and is orthogonal to both operands under dot |
| VecOps.DotLaws | Roberts/icosahedron.py:27 | dot is symmetric and linear in its first operand (sum, scaling, negation) |
| VecOps.GetNOrthogonal | Roberts/linalg.py:20-23 | dot(getN(a, b), a) = dot(getN(a, b), b) = 0 |
| Sorting.Insert | Roberts/icosahedron.py:136 | inserting adds x once, as a multiset, and nothing else |
| Sorting.InsertSorted | Roberts/icosahedron.py:136 | inserting into a sorted list keeps it sorted by key |
| Sorting.InsertStable | Roberts/icosahedron.py:136 | inserting an item whose index exceeds all others keeps equal keys in index order |
| Sorting.SortByKey | Roberts/icosahedron.py:136 | the sort returns a permutation of its input |
| Sorting.SortByKeySorted | Roberts/icosahedron.py:136 | the result's keys never decrease |
| Sorting.SortByKeyStable | Roberts/icosahedron.py:136 | the sort is stable: items with equal keys keep their input order |
| Sorting.SortByKeyIndices | Roberts/icosahedron.py:136-137 | the face indices of the sorted items are a permutation of the input's |
| Sorting.Indices | Roberts/icosahedron.py:137 | computes [fi for (_, fi) in items]: entry k is item k's face index |
| Solids.IcosaFaces | Roberts/icosahedron.py:54-75 | the twenty triangles of the face table, 0-based, in table order |
| Solids.IcosaShape | Roberts/icosahedron.py:54-75 | the table has 20 faces, each of three distinct indices in [0, 12) |
| Solids.IcosaVertexDegree | Roberts/icosahedron.py:54-75 | every vertex index occurs in exactly five faces |
| Solids.IcosaEdgeDegree | Roberts/icosahedron.py:54-75 | every edge of every face lies on exactly two faces |
| Solids.FacesWithEdgeSymmetric | Roberts/icosahedron.py:54-75 | the number of faces on an edge does not depend on the order of its two ends |
| Solids.CanonicalVertices | Roberts/icosahedron.py:33-46 | computes the twelve unnormalised vertices (+-1, +-phi, 0) and their cyclic shifts, in source order |
| Solids.IcosaVertices | Roberts/icosahedron.py:48-51 | computes the 12 vertices: each canonical vertex normalised, then scaled by the radius |
| Solids.IcosaVerticesScale | Roberts/icosahedron.py:48-51 | the vertices of radius r are the unit-radius vertices scaled by r, and radius 0 puts them all at the origin |
| Solids.BuildIcosahedron | Roberts/icosahedron.py:31-77 | the loop returns the normalised and scaled vertices, in order, and the face table |
| Solids.VertexFacesMembers | Roberts/icosahedron.py:96-99 | fi is listed for v exactly when fi is a face index that has v as a corner |
| Solids.VertexFaces | Roberts/icosahedron.py:96-99 | computes vertex_to_faces[v] after the first n faces: fi is appended once per corner of face fi equal to v |
| Solids.VertexFacesAscending | Roberts/icosahedron.py:96-99 | the incidence list never decreases |
| Solids.VertexFacesStrict | Roberts/icosahedron.py:96-99 | when no face repeats a corner, the incidence list strictly ascends |
| Solids.VertexFacesLength | Roberts/icosahedron.py:96-99 | when no face repeats a corner, the list has one entry per face containing v |
| Solids.IcosaVertexFaces | Roberts/icosahedron.py:96-108 | for the icosahedron every vertex_to_faces list has five strictly ascending entries, exactly the faces around the vertex |
| Solids.VertexToFaces | Roberts/icosahedron.py:96-99 | the loop over faces and corners builds the incidence table |
| Solids.VertexFacesTable | Roberts/icosahedron.py:96-99 | computes the whole incidence table, one list per vertex |
| Solids.Centroid | Roberts/icosahedron.py:91 | three times the centroid is the sum of the three corners |
| Solids.Centroids | Roberts/icosahedron.py:86-93 | the loop returns one centroid per face, in face order; three times centroid i is the sum of face i's three corners |
| Solids.FaceCentroids | Roberts/icosahedron.py:86-93 | computes one centroid per face, in face order |
| Solids.Basis | Roberts/icosahedron.py:113-122 | computes the in-plane basis (u, v) at a vertex: helper axis x unless abs(dot(n, x)) > 0.9, then y; u = normalize(cross(arbitrary, n)), v = cross(n, u) |
| Solids.AngleKey | Roberts/icosahedron.py:127-132 | computes atan2(dot(vec, v), dot(vec, u)) for vec the vertex-to-centroid vector |
| Solids.AngleItems | Roberts/icosahedron.py:124-133 | the items carry the incidence list's face indices, in order |
| Solids.DodecaFace | Roberts/icosahedron.py:136-139 | computes one 0-based pentagon: the face indices of the items after the stable sort by angle key |
| Solids.SortedItemsKeyed | Roberts/icosahedron.py:124-136 | after the sort every item still carries its own face's angle key |
| Solids.DodecaFaceOrdered | Roberts/icosahedron.py:110-139 | a pentagon is a permutation of the incident faces with non-decreasing angle keys; equal keys keep ascending index order |
| Solids.PermutationDistinct | Roberts/icosahedron.py:136-139 | a permutation of a strictly ascending list repeats no index |
| Solids.ShiftRoundTrip | Roberts/icosahedron.py:145 | subtracting one after the 1-based shift gives back the 0-based face |
| Solids.Shift | Roberts/icosahedron.py:145 | computes every index plus one |
| Solids.ZeroBased | Roberts/icosahedron.py:145 | computes every index minus one, the inverse of the shift |
| Solids.Pentagons | Roberts/icosahedron.py:101-145 | computes one pentagon per incidence list, shifted to 1-based |
| Solids.DodecaFaces | Roberts/icosahedron.py:83-147 | computes the 12 pentagons of the dodecahedron built from the icosahedron of the given radius |
| Solids.PentagonFacts | Roberts/icosahedron.py:101-145 | pentagon vi lists each face of vertex_to_faces[vi] once, 1-based, ordered by angle key with ties in index order |
| Solids.DodecaFaceFacts | Roberts/icosahedron.py:83-147 | each of the 12 dodecahedron faces lists, 1-based, exactly the five icosahedron faces around its vertex, each once, ordered by angle key |
| Solids.DodecaVertices | Roberts/icosahedron.py:86-93 | the dodecahedron has 20 vertices |
| Solids.DodecaVerticesAreCentroids | Roberts/icosahedron.py:86-93 | dodecahedron vertex i is the centroid of icosahedron face i |
| Solids.CollectItems | Roberts/icosahedron.py:124-133 | the items loop returns (angle key, face index) for each incident face, in list order |
| Solids.OrderAround | Roberts/icosahedron.py:110-139 | one pentagon is the stably sorted face indices of the vertex's items |
| Solids.OrderPentagons | Roberts/icosahedron.py:101-145 | the per-vertex loop returns the pentagons, shifted to 1-based |
| Solids.BuildDodecahedron | Roberts/icosahedron.py:83-147 | returns the centroids as vertices and the 1-based pentagons as faces |
| Figures.IcosaOneBased | Roberts/icosahedron.py:152-156 | Figure("icosa") has the 20 table triangles with every index plus one, all valid for 12 points |
| Figures.DodecaRenderable | Roberts/icosahedron.py:157-160 | Figure("dodeca") has 12 pentagons of valid 1-based indices into its 20 points |
| Figures.OneBased | Roberts/icosahedron.py:156 | computes [tuple(i+1 for i in face) for face in faces] for a table of triangles |
| Figures.Figure.Icosa | Roberts/icosahedron.py:151-156 | the icosahedron of radius 60, faces shifted to 1-based |
| Figures.Figure.Dodeca | Roberts/icosahedron.py:157-160 | the dodecahedron of radius 60, faces as built |
| Figures.NewFigure | Roberts/icosahedron.py:150-162 | "icosa" and "dodeca" give the two solids; any other name is the error "Unknown figure: " + name |
| Figures.ApplyIdentity | Roberts/icosahedron.py:169-170 | the identity matrix leaves every point in place |
| Figures.ApplyCompose | Roberts/icosahedron.py:169-170 | transforming by a product with an affine right factor is transforming by the factors in turn |
| Figures.Apply | Roberts/icosahedron.py:169-170 | computes the first three components of MdotV(M, [p.x, p.y, p.z, 1]) |
| Figures.TransformedPoints | Roberts/icosahedron.py:167-170 | computes every point transformed, as many as there are points |
| Figures.Transform | Roberts/icosahedron.py:165-171 | a fresh figure with the same number of points, point i being the first three components of MdotV(M, [p_i, 1]); its faces are always the icosahedron's |
| Figures.RotX | Roberts/icosahedron.py:183-188 | the rotation about x is a 4x4 matrix |
| Figures.RotY | Roberts/icosahedron.py:190-195 | the rotation about y is a 4x4 matrix |
| Figures.ScaleShift | Roberts/icosahedron.py:198-203 | the scale-and-shift is a 4x4 matrix |
| Figures.ViewMatrixAffine | Roberts/icosahedron.py:180-206 | the view is affine, and applying it is rotating about x, then about y, then scaling and shifting |
| Figures.ViewMatrix | Roberts/icosahedron.py:180-205 | computes Mscale * (Mry * Mrx) with alpha = 30 and beta = 25 degrees |
| Figures.ComposeView | Roberts/icosahedron.py:180-205 | the two MdotM calls return Mscale * (Mry * Mrx) |
| Figures.Centre | Roberts/icosahedron.py:209-211 | computes (cx, cy, cz), the mean of all points |
| Figures.FaceCenter | Roberts/icosahedron.py:225-227 | computes (fx, fy, fz), the mean of the points a face lists, each looked up as index - 1 |
| Figures.OrientationNormal | Roberts/icosahedron.py:216-222 | computes getN(A->B, A->C) for the face's first three corners |
| Figures.OrientationDot | Roberts/icosahedron.py:229-233 | computes dotp, the orientation normal against the vector from the figure's centre to the face's centre |
| Figures.FixFace | Roberts/icosahedron.py:233-237 | computes the fixed face: reversed when dotp < 0, else kept |
| Figures.Reverse | Roberts/icosahedron.py:235 | entry k of the reversed face is entry n - 1 - k of the face |
| Figures.FaceSumReverse | Roberts/icosahedron.py:225-235 | a reversed face sums the same points, so its centre does not move |
| Figures.ReverseTriangleNormal | Roberts/icosahedron.py:216-235 | reversing a triangle negates its orientation normal |
| Figures.FixFaceOutward | Roberts/icosahedron.py:213-237 | a face is reversed exactly when dotp < 0, keeps its corners and centre; a fixed triangle has dotp >= 0 and a second fix changes nothing |
| Figures.ReverseMultiset | Roberts/icosahedron.py:235 | a reversed face lists the same indices |
| Figures.FixedFaces | Roberts/icosahedron.py:213-239 | the fix keeps the number of faces |
| Figures.FixedFacesOutward | Roberts/icosahedron.py:209-239 | with triangles only, every fixed face has dotp >= 0 against the centre of all points |
| Figures.FixedFacesRenderable | Roberts/icosahedron.py:213-239 | the fix keeps every face valid and of the same size |
| Figures.FixOrientation | Roberts/icosahedron.py:209-239 | the loop replaces the faces by the fixed faces and leaves the points alone |
| Figures.VisibilityOpposesOrientation | Roberts/icosahedron.py:245-254 | the visibility normal is the negated orientation normal, so a face is drawn exactly when the orientation normal's z is negative |
| Figures.VisibilityNormal | Roberts/icosahedron.py:245-251 | computes getN(p1->p3, p1->p2) for the face's first three corners |
| Figures.Visible | Roberts/icosahedron.py:254 | holds when the visibility normal's z is strictly positive |
| Figures.Next | Roberts/icosahedron.py:255-258 | the next corner is (i + 1) % size and stays in range |
| Figures.FaceSegmentsClosed | Roberts/icosahedron.py:255-259 | a face's segments start at its rounded corners in order, and each ends where the next begins, the last where the first begins |
| Figures.SegmentOf | Roberts/icosahedron.py:259 | computes the rounded endpoints of one draw.line call |
| Figures.FaceSegments | Roberts/icosahedron.py:255-259 | computes, for corner i, the segment from corner i to corner (i + 1) % size, one per corner |
| Figures.DrawnSegments | Roberts/icosahedron.py:243-259 | computes the segments of the first n faces: all edges of each visible face, faces in order |
| Figures.DrawnSegmentsCount | Roberts/icosahedron.py:243-259 | with triangles only, three segments per visible face and none for hidden ones |
| Figures.DrawVisible | Roberts/icosahedron.py:243-259 | the drawing loop returns every edge of every visible face, faces in order |
| Figures.ViewFaces | Roberts/icosahedron.py:206-239 | render draws from 20 faces, valid for the figure's points |
| Figures.ViewPoints | Roberts/icosahedron.py:205-206 | computes the figure's points under the view matrix, as many as the figure has |
| Figures.Rendered | Roberts/icosahedron.py:205-259 | computes every segment render draws for a figure with the given points |
| Figures.RenderedFacts | Roberts/icosahedron.py:174-259 | render draws from the twenty icosahedron triangles, each kept or reversed to face outwards; a face is drawn exactly when its fixed orientation normal has negative z, as three segments |
| Figures.Render | Roberts/icosahedron.py:174-259 | render's steps in order return the segments of the rendered figure |
| BresenhamLine.NormalizeFacts | Bresenham/line.py:6-16 | after the swaps x1 <= x2 and dy <= dx, and the endpoints are the caller's in some order |
| BresenhamLine.NormalizeSymmetric | Bresenham/line.py:6-16 | the endpoints in either order normalise to the same line |
| BresenhamLine.Normalize | Bresenham/line.py:6-16 | computes the line after the steep swap and the endpoint swap |
| BresenhamLine.YStep | Bresenham/line.py:18 | computes y_step: 1 when y1 < y2, else -1 |
| BresenhamLine.E0 | Bresenham/line.py:17 | computes the initial error int(dx / 2) |
| BresenhamLine.Step | Bresenham/line.py:23-26 | computes one iteration: error -= dy; when it drops below 0, y += y_step and error += dx |
| BresenhamLine.StateAt | Bresenham/line.py:17-26 | computes (error, y) at the top of iteration t, from error = int(dx / 2) and y = y1 |
| BresenhamLine.Cell | Bresenham/line.py:21 | computes coord: (y, x) when steep, else (x, y) |
| BresenhamLine.Pixel | Bresenham/line.py:20-22 | computes the cell the loop sets in iteration t |
| BresenhamLine.ErrorStep | Bresenham/line.py:17-26 | the error stays in [0, max(dx, 1)), and one iteration updates the error and the rise as the loop does |
| BresenhamLine.RiseSteps | Bresenham/line.py:17-26 | the minor coordinate starts at 0 offset, ends at dy, and moves by 0 or 1 per step |
| BresenhamLine.RiseBounds | Bresenham/line.py:17-26 | between the endpoints the offset stays in [0, dy] and can still reach dy |
| BresenhamLine.StateClosedForm | Bresenham/line.py:17-26 | the loop's (error, y) at iteration t agrees with the closed form |
| BresenhamLine.StateErrorBounds | Bresenham/line.py:17-26 | at the top of every iteration 0 <= error < max(dx, 1) |
| BresenhamLine.Traced | Bresenham/line.py:20-22 | the k cells of the first k iterations, in order |
| BresenhamLine.TracedSetMembers | Bresenham/line.py:20-22 | the set of marked cells is exactly the cells traced |
| BresenhamLine.LinePixels | Bresenham/line.py:5-26 | dx + 1 cells are traced |
| BresenhamLine.LinePixelsClosedForm | Bresenham/line.py:17-26 | the t-th cell is the closed-form point t, transposed back in steep mode |
| BresenhamLine.LinePixelsShape | Bresenham/line.py:6-26 | max(abs dx, abs dy) + 1 cells, one per major value in turn; the minor coordinate moves by 0 or y_step, monotonically from one endpoint to the other |
| BresenhamLine.LineEndpoints | Bresenham/line.py:17-26 | both endpoints are written, one first and the other last |
| BresenhamLine.LineSymmetric | Bresenham/line.py:12-14 | the traced cells are the same whichever endpoint is given first |
| BresenhamLine.LineInBox | Bresenham/line.py:5-26 | every traced cell lies in the bounding box of the endpoints |
| BresenhamLine.TraceLine | Bresenham/line.py:17-26 | the loop sets exactly the traced cells to 1 and leaves every other cell as it was |
| BresenhamLine.DrawLine | Bresenham/line.py:5-26 | draw_line sets exactly the cells of LinePixels to 1 and no other cell changes |
| BresenhamCircle.Octants | Bresenham/circle.py:3-11 | eight points, each at squared distance x^2 + y^2 from the centre |
| BresenhamCircle.OctantsSymmetric | Bresenham/circle.py:3-11 | the eight points are closed under mirroring in both axes and the diagonal through the centre |
| BresenhamCircle.StepKeepsDecision | Bresenham/circle.py:19-25 | an iteration advances x by one, lowers y exactly when d > 0, and keeps d = 2(x+2)^2 + 2y^2 - 6y - 2r^2 + 4r - 5 |
| BresenhamCircle.StartDecision | Bresenham/circle.py:14-16 | the start d = 3 - 2r satisfies the closed form |
| BresenhamCircle.Start | Bresenham/circle.py:14-16 | computes x = 0, y = r, d = 3 - 2r |
| BresenhamCircle.Step | Bresenham/circle.py:19-25 | computes one iteration: x += 1, then y -= 1 with d += 4(x - y) + 10 when d > 0, else d += 4x + 6 |
| BresenhamCircle.Run | Bresenham/circle.py:18-27 | computes the states the loop plots after a state, one per iteration, until y < x |
| BresenhamCircle.RunShape | Bresenham/circle.py:18-25 | the iterations are successive steps taken while y >= x, ending with y < x, no more of them than y - x + 1 |
| BresenhamCircle.RunDecision | Bresenham/circle.py:16-25 | every state of the loop keeps d on its closed form |
| BresenhamCircle.CircleStates | Bresenham/circle.py:14-17 | the plotted states start at (0, r, 3 - 2r) |
| BresenhamCircle.CircleStatesFacts | Bresenham/circle.py:13-27 | starts at (0, r) with d = 3 - 2r; each iteration as the loop does it; d on its closed form; stops with y < x after at most r + 1 iterations |
| BresenhamCircle.PointsOfAppend | Bresenham/circle.py:17-27 | the points plotted for a run of states are the points of each state, in order |
| BresenhamCircle.PointsOfIndex | Bresenham/circle.py:17-27 | the eight points of state k sit at positions 8k .. 8k + 7 |
| BresenhamCircle.PointsOf | Bresenham/circle.py:17-27 | computes the eight points of each state, in order: eight per state |
| BresenhamCircle.CirclePoints | Bresenham/circle.py:13-27 | eight points are plotted per state |
| BresenhamCircle.DrawBresenhamCircle | Bresenham/circle.py:13-27 | the loop plots the points of the start and of every state after an iteration, in order |
| ObjTriangulate.Word | Open3D/alfa147.py:26 | the leading run of non-whitespace characters, ended by whitespace or the end of the line |
| ObjTriangulate.IsSpace | Open3D/alfa147.py:26 | holds for the characters Python's str.isspace accepts, the separators of str.split() and str.strip() |
| ObjTriangulate.Split | Open3D/alfa147.py:26 | str.split() returns non-empty tokens free of whitespace |
| ObjTriangulate.SplitJoin | Open3D/alfa147.py:26-37 | splitting a space-joined list of tokens gives the tokens back |
| ObjTriangulate.SplitStrip | Open3D/alfa147.py:26 | stripping the line before splitting changes no token |
| ObjTriangulate.TrimStart | Open3D/alfa147.py:26 | computes str.lstrip(): what it returns is empty or starts with non-whitespace |
| ObjTriangulate.TrimEnd | Open3D/alfa147.py:26 | computes str.rstrip(): what it returns is empty or ends with non-whitespace |
| ObjTriangulate.Strip | Open3D/alfa147.py:26 | computes str.strip() |
| ObjTriangulate.JoinSpace | Open3D/alfa147.py:37 | computes " ".join(ts) |
| ObjTriangulate.StartsWithF | Open3D/alfa147.py:21 | holds when the line starts with "f " |
| ObjTriangulate.FaceParts | Open3D/alfa147.py:26 | computes line.strip().split()[1:], the tokens after the "f" |
| ObjTriangulate.TriangleLine | Open3D/alfa147.py:36-37 | computes "f " + " ".join([a, b, c]) + "\n" |
| ObjTriangulate.Fan | Open3D/alfa147.py:34-37 | n vertex tokens give n - 2 triangles |
| ObjTriangulate.Rewrite | Open3D/alfa147.py:21-37 | computes what is written for one line: the line itself, or the fan of its face |
| ObjTriangulate.Triangulate | Open3D/alfa147.py:19-37 | computes what is written for the lines of a file: each line's rewrite, in order |
| ObjTriangulate.RewriteFacts | Open3D/alfa147.py:19-37 | non-face lines and faces of at most three tokens are copied; a face of n >= 4 tokens becomes n - 2 lines "f p0 pk p(k+1)\n", tokens copied unchanged |
| ObjTriangulate.TriangleLineText | Open3D/alfa147.py:36-37 | a written triangle is "f " + a + " " + b + " " + c + "\n" |
| ObjTriangulate.TriangleLineParts | Open3D/alfa147.py:21-37 | a written triangle is a face record whose tokens are exactly the three it was built from |
| ObjTriangulate.RewriteTriangles | Open3D/alfa147.py:19-37 | no face record written for a line has more than three vertex tokens |
| ObjTriangulate.FlatMapAppend | Open3D/alfa147.py:19 | the output for two runs of lines is the output for the first, then for the second |
| ObjTriangulate.TriangulateAppend | Open3D/alfa147.py:19-37 | the rewrite works line by line and keeps the order of the lines |
| ObjTriangulate.TriangulateTriangles | Open3D/alfa147.py:19-37 | no face record in the output has more than three vertex tokens |
| ObjTriangulate.TriangulateCopies | Open3D/alfa147.py:19-31 | a file without faces of four or more tokens is copied unchanged |
| ObjTriangulate.TriangulateIdempotent | Open3D/alfa147.py:19-37 | triangulating the output again changes nothing |
| ObjTriangulate.TriangulateStep | Open3D/alfa147.py:19-37 | the output for one more line extends the output by that line's rewrite |
| ObjTriangulate.RewriteLine | Open3D/alfa147.py:20-37 | the loop body writes the rewrite of one line |
| ObjTriangulate.WriteFan | Open3D/alfa147.py:34-37 | the fan loop writes the triangles (v0, parts[i], parts[i + 1]) for i = 1 .. n - 2, in order |
| ObjTriangulate.TriangulateObj | Open3D/alfa147.py:19-37 | the loop over the input lines writes the rewrite of each, in order |

## Left out

- Floating point: coordinates and matrix entries are exact reals. `sqrt`/`normalize`, `phi`, `atan2`, `cos`, `sin`, `pi` and `round` are uninterpreted fields of `FloatOps`, so vertex norms, the orthonormality of the (u, v) basis, strict angular order and pixel positions of rendered segments are not proved.
- Image, drawing and plotting: PIL's `Image`/`ImageDraw`, `draw.line`, `img.save`, `img.show` and its fallback `print`, and matplotlib's `plt.plot`/`imshow`/`show`, are output only. `render` returns the list of segments it would draw, as rounded endpoints. `draw_circle` returns the eight points it would plot. The `print(x, y)` of the circle loop is left out.
- Module configuration and entry points: `IMG_SIZE` is left out, because it only sizes the image. `SCALE` and `OFFSET` are parameters of `Render`. `MODE`, the `__main__` blocks and the demo calls are not part of this model.
- The check `len(face_indices) != 5` in build_dodecahedron_from_icosa does nothing, so it has no counterpart. `Solids.IcosaVertexFaces` proves that the lists have five entries.
- Python's `list.sort(key=...)` is modelled as a stable insertion sort (`Sorting.SortByKey`) that returns a new list. The in-place update of `items` is not modelled. Stability and the permutation property are what the model relies on, and both are proved.
- OBJ file handling: opening the files, universal-newline reading and `errors="ignore"` decoding are not modelled. Open3D loading and viewing are left out too. The input file is a sequence of lines, and the output file is the sequence of strings written to it.
- `ObjTriangulate.IsSpace`: Python's `str.isspace` is modelled by an explicit list of whitespace code points. Unicode database lookups are not modelled.
- `ObjTriangulate.TriangulateIdempotent`: stated on the sequences of written strings. The output is not re-split into lines.
- `BresenhamLine.DrawLine`: requires both endpoints inside the image. In the source, numpy wraps negative indices into the image and raises IndexError for indices that are too large. The model does not capture either. The `uint8` image is modelled as an integer array.
- `Figures.Render`: requires at least twelve points. `transform` always hands back the icosahedron's faces, which index points 1 .. 12. With fewer points the source raises IndexError, or ZeroDivisionError for an empty figure. This behaviour of `transform` is reproduced rather than fixed: rendering `Figure("dodeca")` draws the icosahedron's triangles over the first twelve of its 20 points.
- Deep copies and aliasing: `transform` copies the point list. The model's figures hold value sequences, so there is no aliasing to track.
- Python's integer `int(dx / 2)` goes through a float. For the non-negative `dx` of the loop it equals Dafny's `dx / 2` while dx < 2^53, which every drawable image satisfies; the model uses `dx / 2`, and does not capture the float rounding of larger odd dx (or the OverflowError beyond about 1.8e308).
