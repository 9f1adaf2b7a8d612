# Comp371 scene builders in Dafny

This project models the buffer and scene builders of `src/Main.cpp`, a small
OpenGL viewer that draws a ground grid, three axes and the name tag "TELLUM".
The name tag is built from spheres and cubes. The model covers these builders:

- `createGrid(n)`: an (n+1) x (n+1) lattice on the XZ plane, plus a `GL_LINES`
  index list with four two-index segments around every cell.
- `CreateSphere`: lats + 1 latitude bands. Each band is a triangle strip of
  2 (longs + 1) vertices with running indices, followed by the primitive-restart
  sentinel.
- `CreateCylinder`: lats + 1 steps. Each step pushes ten vertices with running
  indices: a bottom and a top side pair, a top-cap triangle and a bottom-cap triangle.
- `CreateCube`: the fixed table of 8 corners and 36 indices.
- `CreateLetterT/E/L/U/M`, `CreateVertical` and `CreateHorizontal`: each letter
  is an ordered list of parts (spheres used as strokes, cubes used as bar halves)
  with their offsets. `CreateLetters` stacks the six letters by composing translations.
- The keyboard handling of the render loop: the world-angle step, `SelectModel`,
  and the dispatch that transforms only the selected letter.

Modules:

- `Geometry` (geometry.dfy) holds the shared vocabulary:
  - points and meshes;
  - the running-index builder (`Emit`, `EmitAll`, `PushRestart`);
  - the sentinel `RestartIndex`;
  - `Range`, `Flatten`, `RealIndices` (the index list with sentinels removed);
  - `Mul`, a product by repeated addition.
- `Grid`, `Sphere`, `Cylinder` and `Cube` each model one builder.
  - Each loop is a Dafny method with loop invariants.
  - Each method's contract states the result position by position: the count,
    which vertex or index sits at each slot, and the range of the indices.
  - The loop invariants use a recursive "state after i turns" function. Lemmas
    link that function to an independent reference layout.
- `Letters` and `NameTag` model the letters and `CreateLetters`.
- `Input` models the per-frame keyboard logic.

The sine, cosine and pi of the C runtime are a parameter (`Geometry.Trig`). The
only fact assumed about them is sin² + cos² = 1, used for the on-sphere and
on-circle lemmas. The rest of the sphere and cylinder vertex data is symbolic:
each vertex records the loop counters it was computed from (`Sphere.Sample`,
`Cylinder.CylinderVertex`).

The sphere and cylinder builders are modelled for any step counts. The program
always calls them with lats = longs = 40 (sphere) and lats = 40 (cylinder).
`Sphere.ProgramSphere` instantiates the sphere. The cylinder's 41 x 10 = 410
vertices and indices follow from `Cylinder.CreateCylinder` with lats = 40.

Facts about the code that the model relies on:

- **Sentinel value.** The sentinel is `GL_PRIMITIVE_RESTART_FIXED_INDEX`, the
  enum token 0x8D69. The code installs it with `glPrimitiveRestartIndex`
  (line 86) and pushes it as the index that ends each sphere band (line 522).
  - The model proves that no real index collides with it for the program's
    sizes (3362 vertices).
  - It also proves exactly when a collision would happen
    (`Sphere.SentinelCollision`).
- **Cylinder step size.** Each cylinder step pushes ten vertices, each with its
  own index (lines 591-655).
- **Cylinder sentinel.** The cylinder pushes no sentinel at all.
- **Left grid segment.** The comment above the grid loop (line 339) says the
  last segment goes "bottom left with top right". The code (lines 355-356)
  joins bottom-left to top-left.

## Model

| member | source | states |
|---|---|---|
| Grid.CreateGrid | src/Main.cpp:320-363 | For n >= 1 the float list has 3(n+1)² entries. Lattice point (i, j) sits at flat position i(n+1)+j with coordinates (j/n, 0, i/n). There are 8n² indices, each < (n+1)², and cell (i, j) occupies slots 8(i n + j) .. +7. |
| Grid.BuildLattice | src/Main.cpp:326-336 | The nested vertex loops push (n+1)² points, and lattice point (i, j) sits at row-major position i(n+1)+j for every i, j <= n. |
| Grid.BuildLines | src/Main.cpp:340-358 | The nested index loops push 8n² indices, each below (n+1)², with entry k of cell (i, j) at slot 8(i n + j) + k. |
| Grid.BuildRowLines | src/Main.cpp:341-357 | One row of the inner index loop keeps the list built so far and appends 8n entries: entry k of cell (i, c) lands 8c + k past the old end. |
| Grid.CellIsClosedLoop | src/Main.cpp:342-356 | A cell's eight indices are top, right, bottom and left segments. They start at (i, j), (i, j+1), (i+1, j+1) and (i+1, j), each ends where the next begins, and the last ends at the first's start. Every segment joins lattice neighbours (indices differing by 1 or n+1). |
| Grid.LatticeRowsAt | src/Main.cpp:326-336 | After i rows, lattice point (row, c) is at position row(n+1)+c. |
| Grid.CellRowsLayout | src/Main.cpp:340-358 | After i rows of cells, entry k of cell (row, c) is at slot 8(row n + c) + k. |
| Grid.CellRowsBound | src/Main.cpp:340-358 | After i <= n rows of cells, every index is below (i+1)(n+1). |
| Grid.GridCoordinates | src/Main.cpp:326-336 | Every lattice point (i, j) has floats j/n, 0, i/n at positions 3(i(n+1)+j) .. +2. |
| Grid.GridLines | src/Main.cpp:340-358 | The index list has 8n² entries, all below (n+1)², with cell (i, j) at its slots. |
| Grid.GridCounts | src/Main.cpp:326-358 | (n+1)² points, 3(n+1)² floats, 8n² indices. |
| Grid.CoordInUnit | src/Main.cpp:325-330 | Each coordinate a/n lies in [0, 1]. It is 0 for a = 0 and is 1 exactly when a = n. |
| Sphere.CreateSphere | src/Main.cpp:487-527 | The mesh has 2(lats+1)(longs+1) vertices and (lats+1)(2(longs+1)+1) indices. While the vertex count stays at or below the sentinel: the non-sentinel entries are exactly 0, 1, 2, … in order; the sentinel occurs lats+1 times and is the last entry; and every entry names a vertex or is the sentinel. |
| Sphere.BuildSphere | src/Main.cpp:495-523 | The two loops push 2(lats+1)(longs+1) vertices and (lats+1)(2(longs+1)+1) indices, and the counter ends at the vertex count. Band b's slots hold the running indices 2b(longs+1), 2b(longs+1)+1, … then the sentinel. The vertex at running index 2b(longs+1)+2c is the sample at latitude b−1, longitude c−1; the next is at latitude b. |
| Sphere.BandStep | src/Main.cpp:505-521 | One inner turn emits the lower-latitude sample and then the upper one, each with the next running index. |
| Sphere.SphereBandsLayout | src/Main.cpp:495-523 | The builder's vertex and index lists equal the independent band-by-band reference layouts. |
| Sphere.SphereIndexAt | src/Main.cpp:505-522 | Entry q < 2(longs+1) of band b is the running index 2b(longs+1)+q, and entry 2(longs+1) of band b is the sentinel. |
| Sphere.SphereVertexAt | src/Main.cpp:496-520 | The vertex with running index 2b(longs+1)+2c is the sample at latitude b-1, longitude c-1. The next one is at latitude b, longitude c-1. |
| Sphere.SphereRealIndices | src/Main.cpp:494-522 | With sentinels removed, the index list of i bands is 0 .. 2i(longs+1)-1 in order (while below the sentinel). |
| Sphere.SphereSentinelCount | src/Main.cpp:522 | The sentinel appears exactly once per band (while no running index reaches its value). |
| Sphere.SentinelCollision | src/Main.cpp:513-522 | A band entry that is not a band end carries the sentinel's value if and only if there are more than 0x8D69 vertices. |
| Sphere.SphereIndicesInRange | src/Main.cpp:495-523 | Every index entry names an existing vertex or is the sentinel, for any lats and longs. |
| Sphere.SphereCounts | src/Main.cpp:495-523 | Vertex count 2(lats+1)(longs+1) and index count (lats+1)(2(longs+1)+1). |
| Sphere.SphereStructure | src/Main.cpp:495-523 | The real entries are 0, 1, 2, …; the sentinel count is lats+1 with the sentinel last; every entry is in range (when the vertex count is at most the sentinel). |
| Sphere.ProgramSphere | src/Main.cpp:488-489 | With 40 and 40 steps: 3362 vertices, 41 · 83 indices, and the largest running index 3361 is below 0x8D69 (the value installed at line 86). |
| Sphere.SpherePointOnUnitSphere | src/Main.cpp:496-518 | Given sin² + cos² = 1, every computed vertex satisfies x² + y² + z² = 1. |
| Cylinder.CreateCylinder | src/Main.cpp:572-660 | There are 10(lats+1) vertices and 10(lats+1) indices. The indices are exactly 0 .. 10(lats+1)-1 in order, with no sentinel while below it. The vertices are the steps' ten-vertex blocks in order. |
| Cylinder.BuildCylinder | src/Main.cpp:579-656 | The loop pushes 10(lats+1) vertices, with turn s's ten pushes at slots 10s .. 10s+9 in push order. The index list is exactly 0 .. 10(lats+1)−1 and the counter ends at the vertex count. |
| Cylinder.CylinderLayout | src/Main.cpp:579-656 | After i steps the builder holds the reference vertex list, its counter is 10i, and its index list is 0 .. 10i-1. |
| Cylinder.CylinderVertexAt | src/Main.cpp:589-655 | Entry k of step s's block is the k-th vertex that step pushes. |
| Cylinder.CylinderBlocks | src/Main.cpp:589-655 | Every vertex is at height 0 or 2.5. In every block of ten, slots 6 and 9 are the top and bottom cap centres, slots 4-5 repeat 2-3, and slots 7-8 repeat 0-1. |
| Cylinder.CylinderPointOnCircle | src/Main.cpp:581-587 | Given sin² + cos² = 1, rim vertices lie on the circle of the given radius around the y axis, cap centres lie on the axis, and y is the vertex's height. |
| Cube.CreateCube | src/Main.cpp:530-569 | 8 corners (24 floats), each coordinate ±0.5, and 36 indices, all < 8, forming 12 triangles. |
| Cube.CornersNamed | src/Main.cpp:531-552 | Every one of the 36 index entries is below 8. |
| Cube.FaceTableLayout | src/Main.cpp:531-552 | Each commented face's six entries occupy its own six-slot place in the table (front, right, back, left, bottom, top). |
| Cube.FacesUseTheirCorners | src/Main.cpp:531-563 | Each face's six entries name only corners on that face's plane, and every corner on that plane is named. |
| Cube.TriangleFacesOutward | src/Main.cpp:531-563 | For each of the 12 triangles (a, b, c), ((b − a) × (c − a)) · a > 0: the triangle is wound counter-clockwise seen from outside. |
| Cube.FrontRightBackOutward | src/Main.cpp:531-563 | Outward winding for the front, right and back faces' six triangles. |
| Cube.LeftBottomTopOutward | src/Main.cpp:531-563 | Outward winding for the left, bottom and top faces' six triangles. |
| Letters.PartCounts | src/Main.cpp:681-912 | Part counts per letter: T 4 (2 strokes, 2 bar halves), E 8 (2, 6), L 4 (2, 2), U 6 (4, 2), M 7 (5, 2). |
| Letters.LettersHaveWholeBars | src/Main.cpp:681-912 | In every letter, bar halves come in adjacent pairs: x = −0.5 followed by x = +0.5 at the same y, with no unpaired half. |
| Letters.LettersAreConnected | src/Main.cpp:662-912 | In every letter, each bar half (the unit cube scaled 1 x 0.5, then offset) is centred at the height of the lower or upper end of some stroke (the unit sphere scaled 0.25 x 1, then offset). That stroke's axis passes through the bar the half belongs to: the half itself or its partner. |
| Letters.BarSupport | src/Main.cpp:662-912 | Names, for each bar half, a stroke that carries it: the half is at the height of that stroke's end, and the stroke's axis crosses the half or its partner. |
| NameTag.CreateLetters | src/Main.cpp:366-422 | The letters keep their order. Letter k's matrix is the identity translated along y by steps 0..k and not along x or z: composing translations adds offsets. |
| NameTag.OffsetsIncrease | src/Main.cpp:375-402 | The running offsets strictly increase if and only if every step after the first is positive. |
| NameTag.ProgramOffsets | src/Main.cpp:375-402 | For the steps 0, 4.7, 4.7, 4.7, 4.7, 4.3 the offsets are 0, 4.7, 9.4, 14.1, 18.8, 23.1, strictly increasing. |
| Input.RotateWorld | src/Main.cpp:122-147 | HOME resets to (−5, 0) whatever else is held. Otherwise each angle changes by at most 0.5: x rises iff LEFT is held without RIGHT and falls iff RIGHT without LEFT; y likewise with UP and DOWN. |
| Input.RotationUndone | src/Main.cpp:122-141 | A frame with LEFT then a frame with RIGHT (or UP then DOWN) returns to the starting angles. |
| Input.HomeForgets | src/Main.cpp:142-147 | With HOME held the result does not depend on the starting angles. |
| Input.SelectModel | src/Main.cpp:473-484 | If some digit 1..6 is held, the selection becomes k − 1 for the highest held k. With none held it is unchanged. A selection below 6 stays below 6. |
| Input.SelectFrom | src/Main.cpp:476-483 | The checks from digit d to 6: a later held digit overrides an earlier one. |
| Input.SelectIdempotent | src/Main.cpp:473-484 | Running SelectModel again with the same keys changes nothing. |
| Input.Dispatch | src/Main.cpp:203-259 | Of the six letters, exactly the selected one is transformed with the held keys; every other letter is unchanged. |
| Input.Frame | src/Main.cpp:122-259 | One frame steps the angles, runs SelectModel, then transforms only the newly selected letter. The selection stays in [0, 6). |

## Left out

- Window, GLFW input polling, camera, shaders, uniforms, colours, polygon modes and draw calls: graphics and I/O glue.
- The `Mesh`, `IndependentMesh` and `ComplexObject` classes are not part of this model. A built mesh is returned as its vertex and index lists instead of being uploaded by `CreateMesh`.
- `ComplexObject::Transform` is not part of this model; it is the parameter `transform` of `Input.Dispatch`.
- `CreateAxes` (three cylinders with rotations) and the dead arrays inside it are not modelled, because rotations are library floating-point matrix maths. The cylinder builder itself is modelled.
- glm matrices in general are not modelled: rotations, perspective, view, and the name tag's own scale 0.25 and translation (0, 1, 40).
- Only the two uses of matrices that are pure arithmetic are modelled:
  - the translations composed in `CreateLetters`;
  - where a part's centre lands after the part's scale and offset.
- Floating-point rounding: coordinates are exact reals. sin, cos and pi are parameters with sin² + cos² = 1 as the only assumed fact, so the concrete trigonometric values are not modelled.
- `toRadians`, camera pan, tilt and zoom, and the 0.01 vertical drift (lines 150-157) are not modelled: they are floating-point view state.
- `processInput` is not modelled: it is never called.
- Memory ownership (`new` without `delete`) is not modelled.
- Integer width is not modelled: counts and indices are unbounded naturals. At the program's sizes every count is far below 2³¹, so the 32-bit `int` and `GLuint` of the source do not wrap.
- Grid.CreateGrid: requires n >= 1. With n = 0 the source divides 0 by 0 in floating point (NaN), which exact reals cannot express. The program calls it with 128.
- Sphere.CreateSphere: the structure facts are stated under the condition that the vertex count is at most 0x8D69. For larger meshes, `Sphere.SentinelCollision` shows a real index equals the sentinel.
- Cylinder.CreateCylinder: the radius only enters the vertex coordinates, so it is a parameter of `Cylinder.CylinderPoint` rather than of the builder.
