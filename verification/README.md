# Trackball, orbit camera, meshes and host loop of an OpenGL demo, in Dafny

This project models the small, sequential logic inside a real-time OpenGL
rendering demo (`Final_Project/src`), and proves properties of it.

- **`Trackball`** (`trackball.dfy`, module `VirtualTrackball`). This is the
  virtual-sphere trackball. It turns a cursor position into an (axis,
  angle) rotation. The model covers:
  - the rim test `dx² + dy² > r²`;
  - the lift onto the ball inside the rim, and the reprojection through the
    camera basis;
  - the dead zone `|newVec - nowVec| < 0.01`;
  - the two refresh operations.
- **`SphereCamera`** (`sphere_camera.dfy`, module `OrbitCamera`). This is the
  orbit camera for the point light, with parameters `(center, r, theta,
  phi)`. It has the `r ≥ 0.1` floor, the `phi ∈ [10, 88]` clamp and the theta
  reset. `position`, `front` and `up` are recomputed on every change.
- **Transform state of `Mesh` and `AssimpMesh`** (`placement.dfy`, `mesh.dfy`,
  `assimp_mesh.dfy`). This covers:
  - the angles, the accumulated rotation, the translation and the clamped
    bloom radius;
  - both `getModelMatrix` functions;
  - `AssimpMesh::bindTextures`, which picks a sampler uniform name and a
    texture unit for each texture. The texture number is spelt by
    `std::to_string`, which is modelled in `decimal.dfy`.
- **The two OBJ-like loaders of `Mesh`** (`mesh_loaders.dfy`, with
  `bounding_box.dfy`). They work over input that is already split into tokens.
  - `load_vtn` builds the interleaved 8-floats-per-corner buffer from 1-based
    `a/b/c` triples, and tracks the bounding box from the sentinel seed
    (-1, 10000).
  - `load` builds the 6-floats-per-vertex buffer and the index list, with the
    box seeded from the first vertex, and accumulates each face's normal into
    its corners (`updateNormal`, `getNormal`).
  - `face_stream.dfy` (module `FaceStream`) follows `load`'s face loop at the
    level of characters, as the `>>` extractions read them, for the finding
    below.
- **The host program** (`host.dfy`, `host_session.dfy`, `bloom.dfy`). This
  covers:
  - the mouse-button and cursor callbacks;
  - the debounce of `processInput` and its toggles;
  - the guard that applies trackball rotations only while the left button is
    held;
  - whole sessions of window events;
  - the bloom ping-pong blur schedule and the composite's choice of texture.

Scalars are `real`. The transcendental and matrix builders of glm are fields
of a `Transcendentals` value passed as a parameter:
- `sqrt`, `acos`, `sin`, `cos`, and the constant `pi`;
- `glm::rotate`, `glm::lookAt`.

`glm::radians` is defined from `pi`, as `degrees · pi / 180` (`Glm.Radians`).

The laws a lemma needs are its preconditions:
- `SqrtLaw`: `sqrt` is the non-negative square root on non-negative arguments.
- `TrigLaw`: `sin² + cos² = 1`.

`glm::normalize` is `v * (1 / sqrt(dot(v, v)))`, as glm defines it. The
translation and scaling matrices are concrete column-major 4×4 matrices
(`glm.dfy`).

Several details of the code differ from what a reader of the class names might
expect. The model follows the code:
- The angle is `acos` of the unclamped dot product.
- `theta` may end at exactly 360, not only in `[0, 360)`.
- `refreshViewCoord` stores `front` and `up` without normalising them.
- `nowVec` is not always a unit vector: see `VirtualTrackball.RefreshKeepsFrontLength`.
- There is no check that the trackball radius is positive.
- A cursor exactly on the rim takes the inside branch, because the test is strict.
- `getViewMatrix` passes `front`, a direction, as the look-at target.

## Model

| member | source | states |
|---|---|---|
| `VirtualTrackball.FromRadius` | Final_Project/src/Trackball.h:10 | The one-argument constructor puts the reference point at the origin with radius `r`, and `nowVec = (0,0,1)`, a unit vector |
| `VirtualTrackball.FromScreen` | Final_Project/src/Trackball.h:11 | The three-argument constructor puts the reference point at the screen centre `(width/2, height/2)`, with `nowVec = (0,0,1)` |
| `VirtualTrackball.FromView` | Final_Project/src/Trackball.h:12-16 | The five-argument constructor centres the reference point and keeps `r`. It stores `normalize(front)` and `normalize(up)`, sets `nowVec = normalize(-front)` and `right = normalize(cross(front, up))` from the stored pair, and `right` is perpendicular to both |
| `VirtualTrackball.FromViewBasis` | Final_Project/src/Trackball.h:12-16 | For a non-zero `front`, the stored `front` is the unit vector pointing the same way as the argument, `nowVec` is exactly its negation and also a unit vector. For a non-zero `up`, the stored `up` is the unit vector along the argument |
| `VirtualTrackball.RefreshScreenCoord` | Final_Project/src/Trackball.h:18-23 | The reference point becomes `(_x, _y)` and `nowVec = -front`; `r`, `front`, `up` and `right` are unchanged |
| `VirtualTrackball.RefreshViewCoord` | Final_Project/src/Trackball.h:26-32 | `front` and `up` are stored as given, without normalising. `nowVec` becomes `normalize(-front)` and `right` becomes `normalize(cross(front, up))`, which is perpendicular to both. The reference point and `r` are unchanged |
| `VirtualTrackball.RefreshViewCoordUnit` | Final_Project/src/Trackball.h:30-31 | For a non-zero `front`, the new `nowVec` is the unit vector along `-front`. When `cross(front, up)` is non-zero, the new `right` is the unit vector along it |
| `VirtualTrackball.RefreshKeepsFrontLength` | Final_Project/src/Trackball.h:18-32 | After `refreshViewCoord` then `refreshScreenCoord`, `nowVec` has the length of the `front` passed in, which need not be 1 |
| `VirtualTrackball.GetRotation` | Final_Project/src/Trackball.h:34-70 | `getRotation` never changes the reference point, `r` or the basis; `nowVec` either stays or becomes the lifted vector |
| `VirtualTrackball.OutsideRimIsPlanar` | Final_Project/src/Trackball.h:42-45 | Strictly outside the rim, the lifted vector is the unit vector along `(dx, dy, 0)`, with `dy` the flipped screen offset; there is no reprojection |
| `VirtualTrackball.InsideRimLifts` | Final_Project/src/Trackball.h:46-52 | On or inside the rim, the height `sqrt(r² - dx² - dy²)` is non-negative and is zero exactly on the rim. The local vector is a unit vector with `z ≥ 0`, and it is reprojected through `right`, `up` and `-front` |
| `VirtualTrackball.PoleLift` | Final_Project/src/Trackball.h:49-50 | For a non-zero radius, the reference point itself lifts to the pole `(0,0,1)` |
| `VirtualTrackball.ReprojectPole` | Final_Project/src/Trackball.h:51 | The pole `(0,0,1)` reprojects to `-front` |
| `VirtualTrackball.ProbeAtOwnReference` | Final_Project/src/Trackball.h:37-52 | A probe at the reference point has offset `(0,0)`, so it takes the inside branch |
| `VirtualTrackball.ProbeAtReference` | Final_Project/src/Trackball.h:18-52 | Right after `refreshScreenCoord(sx, sy)` with a unit `front`, a probe at `(sx, sy)` lifts to `nowVec` itself |
| `VirtualTrackball.DeadZoneIsSquaredDistance` | Final_Project/src/Trackball.h:56 | The dead-zone test `length(newVec - nowVec) < 0.01` is the squared-distance test `< 0.0001` |
| `VirtualTrackball.DeadZoneKeepsState` | Final_Project/src/Trackball.h:56-69 | Inside the dead zone the result is `((0,0,1), 0)` and the state is untouched; outside it, only `nowVec` changes, to the lifted vector |
| `VirtualTrackball.AxisPerpendicular` | Final_Project/src/Trackball.h:61-69 | Outside the dead zone, the axis is perpendicular to the old and the new vector, and the angle is `acos` of their unclamped dot product |
| `VirtualTrackball.RepeatIsStill` | Final_Project/src/Trackball.h:34-69 | A second call with the same coordinates and no refresh in between returns `((0,0,1), 0)` and changes nothing |
| `VirtualTrackball.ProbeAtReferenceIsStill` | Final_Project/src/Trackball.h:18-60 | Right after `refreshScreenCoord(sx, sy)` with a unit `front` and a non-zero radius, `getRotation(sx, sy)` falls in the dead zone |
| `OrbitCamera.UpdateAll` | Final_Project/src/SphereCamera.h:28-42 | `updateAll` keeps `center`, `r`, `theta` and `phi`, and recomputes `position`, `front` and `up` from them |
| `OrbitCamera.FromCenter` | Final_Project/src/SphereCamera.h:16-20 | The two-argument constructor uses `theta = 0` and `phi = 2`, which is outside `[10, 88]`; it derives the vectors |
| `OrbitCamera.FromAngles` | Final_Project/src/SphereCamera.h:22-26 | The four-argument constructor stores its angles unclamped and derives the vectors |
| `OrbitCamera.FloorR` | Final_Project/src/SphereCamera.h:85-86 | The radius rule gives a result of at least 0.1; it is `r + d` whenever `r + d ≥ 0.1`, and 0.1 otherwise |
| `OrbitCamera.FloorRIsMax` | Final_Project/src/SphereCamera.h:85-86 | The radius rule equals `max(0.1, r + d)` |
| `OrbitCamera.WrapTheta` | Final_Project/src/SphereCamera.h:92-97 | The azimuth rule gives 0 above 360, 360 below 0, and `theta + a` otherwise; the result is always in `[0, 360]` |
| `OrbitCamera.ThetaResetsRatherThanWraps` | Final_Project/src/SphereCamera.h:92-97 | The azimuth rule is a reset, not a modulus: 359 + 2 gives 0, and 1 - 2 gives 360 |
| `OrbitCamera.ClampPhi` | Final_Project/src/SphereCamera.h:104-109 | The elevation rule keeps `phi` in `[10, 88]`, and stores `phi + a` unchanged when it is already in range |
| `OrbitCamera.ClampPhiIsMinMax` | Final_Project/src/SphereCamera.h:104-109 | The elevation rule equals `max(10, min(88, phi + a))` |
| `OrbitCamera.UpdateCenter` | Final_Project/src/SphereCamera.h:77-81 | `updateCenter(d)` adds `d` to the centre, leaves `r`, `theta` and `phi` alone, and re-derives the vectors |
| `OrbitCamera.UpdateR` | Final_Project/src/SphereCamera.h:83-88 | `updateR` changes only the radius, which stays at least 0.1, and re-derives the vectors |
| `OrbitCamera.UpdateTheta` | Final_Project/src/SphereCamera.h:90-100 | `updateTheta` changes only `theta`, which stays in `[0, 360]`, and re-derives the vectors |
| `OrbitCamera.UpdatePhi` | Final_Project/src/SphereCamera.h:102-112 | `updatePhi` changes only `phi`, which stays in `[10, 88]`, and re-derives the vectors |
| `OrbitCamera.HorizontalLength` | Final_Project/src/SphereCamera.h:30 | Assuming `sin² + cos² = 1`, the horizontal part of the eye offset has squared length `(r cos phi)²` |
| `OrbitCamera.EyeOffsetLength` | Final_Project/src/SphereCamera.h:30 | Assuming `sin² + cos² = 1`, the eye offset has squared length `r²` |
| `OrbitCamera.OrbitRadius` | Final_Project/src/SphereCamera.h:30-31 | The eye stays on the sphere: `|position - center|² = r²` |
| `OrbitCamera.FrontTowardCenter` | Final_Project/src/SphereCamera.h:30-33 | For `r ≠ 0`, `front` is the unit vector from the eye toward the centre, and `position = center - |r| front` |
| `OrbitCamera.ExtendOffset` | Final_Project/src/SphereCamera.h:35 | For `r cos phi > 0`, normalising the horizontal direction of the helper point divides it by `r cos phi` |
| `OrbitCamera.UpDirectionPerpendicular` | Final_Project/src/SphereCamera.h:35-37 | For `r cos phi > 0`, the vector from the helper point to the eye is perpendicular to the eye offset |
| `OrbitCamera.UpPerpendicularToFront` | Final_Project/src/SphereCamera.h:30-39 | For `r cos phi > 0` (a positive radius with `phi` in `[10, 88]`), `up` is perpendicular to `front` |
| `OrbitCamera.UpFlipsBelowEquator` | Final_Project/src/SphereCamera.h:35-39 | `up` is a unit vector, and it is negated exactly when `phi < 0`: its vertical part opposes `r sin phi` exactly then |
| `OrbitCamera.GetRight` | Final_Project/src/SphereCamera.h:129-132 | `getRight` is perpendicular to both `front` and `up` |
| `OrbitCamera.ViewTargetIsDirection` | Final_Project/src/SphereCamera.h:134-138 | `getViewMatrix` passes `front`, a direction, as the target. The eye-to-target vector is `(1 + |r|) front - center`, not `front` |
| `Placement.Initial` | Final_Project/src/Mesh.h:16 | Both constructors start with zero angles, the identity rotation, and the given translation and bloom radius |
| `Placement.ClampBloomR` | Final_Project/src/Mesh.h:196-198 | The bloom-radius rule keeps the value in `[0.005, 0.5]`, and stores `bloomR + d` when it lies strictly inside |
| `Placement.ClampBloomRIsMinMax` | Final_Project/src/Mesh.h:196-198 | The bloom-radius rule equals `max(0.005, min(0.5, bloomR + d))` |
| `Placement.UpdateBloomR` | Final_Project/src/Mesh.h:194-199 | `updateBloomR` changes only `bloomR`, which stays in `[0.005, 0.5]`; `AssimpMesh.h:253-258` is the same code |
| `Placement.BloomRClampIdempotent` | Final_Project/src/Mesh.h:194-199 | A further zero-step update changes nothing |
| `Placement.UpdateAngle` | Final_Project/src/Mesh.h:178-192 | `updateAngle(d, k)` adds `d` to `xAngle`, `yAngle` or `zAngle` for `k` = 0, 1 or 2, and changes nothing for any other `k`; `AssimpMesh.h:237-251` is the same |
| `Placement.UpdateAngleAccumulates` | Final_Project/src/Mesh.h:178-192 | Two updates of the same angle add up |
| `Placement.UpdateTranslateDiff` | Final_Project/src/Mesh.h:164-167 | `updateTranslateDiff` adds `diff` to `translateDiff` and touches nothing else; `AssimpMesh.h:223-226` is the same |
| `Placement.TranslationsAccumulate` | Final_Project/src/Mesh.h:164-167 | Two translations add up to one by their sum |
| `Placement.UpdateRotation` | Final_Project/src/Mesh.h:169-176 | `updateRotation` pre-multiplies: `rotation := rotate(I, angle, axis) * rotation`, and nothing else changes; `AssimpMesh.h:228-235` is the same |
| `Placement.StillRotationIsNoOp` | Final_Project/src/Mesh.h:169-176 | When `rotate` gives the identity for a zero angle, the dead-zone pair `(axis, 0)` leaves the state unchanged |
| `Placement.FirstRotation` | Final_Project/src/Mesh.h:174-175 | From the initial state, the first rotation is exactly `rotate(I, angle, axis)` |
| `MeshModel.NewMesh` | Final_Project/src/Mesh.h:15-16 | A new `Mesh` has `bloomR = 0.01` (inside the clamp range), zero angles, the identity rotation, the initial position as translation, a zero box and zero counts |
| `MeshModel.MaxExtent` | Final_Project/src/Mesh.h:154 | The scale denominator is at least the box's side on every axis, and it equals one of the three sides |
| `MeshModel.UnnormalizedModel` | Final_Project/src/Mesh.h:144-162 | `getModelMatrix(false)` is `translate(I, translateDiff) * rotation` |
| `MeshModel.NormalizedIgnoresRotation` | Final_Project/src/Mesh.h:148-155 | `getModelMatrix(true)` does not depend on `rotation`, because line 153 overwrites the rotated matrix |
| `MeshModel.NormalizingMaps` | Final_Project/src/Mesh.h:153-155 | The normalising matrix maps `p` to `(p - center) / (largest side)` |
| `MeshModel.ModelMatrix` | Final_Project/src/Mesh.h:144-162 | With `normalize`, `getModelMatrix` sends the box centre to the origin, whatever the rotation and translation hold |
| `MeshModel.NormalizingCenters` | Final_Project/src/Mesh.h:153-155 | The centring-and-scaling matrix sends the box centre to the origin |
| `MeshModel.NormalizedFitsUnitCube` | Final_Project/src/Mesh.h:149-156 | When the largest side is positive, `getModelMatrix(true)` maps every point of the box into `[-1/2, 1/2]³`, as its comment promises |
| `MeshModel.ScaledSides` | Final_Project/src/Mesh.h:154-155 | Dividing the box's sides by the largest one gives sides of at most 1, one of them exactly 1 |
| `MeshModel.NormalizedSizeIsOne` | Final_Project/src/Mesh.h:149-156 | When the largest side is positive, `getModelMatrix(true)` makes the image of the box's largest side exactly 1 long and no side longer: "normalize the size to 1" |
| `BoundingBox.Grow` | Final_Project/src/Mesh.h:257-258 | One point widens each axis maximum to `max(old, coordinate)` and each minimum to `min(old, coordinate)` |
| `BoundingBox.BoxOfContains` | Final_Project/src/Mesh.h:252-259 | The grown box contains every point read and encloses its seed |
| `BoundingBox.BoxOfAttained` | Final_Project/src/Mesh.h:252-259 | Each bound of the grown box is the seed's bound or a coordinate of some point |
| `BoundingBox.PointSeededBox` | Final_Project/src/Mesh.h:486-515 | Seeded from the first vertex, as `load` does it, the box has `min ≤ max` on every axis, contains every vertex, and each bound is a true extremum of the vertices |
| `MeshLoaders.ReadHeader` | Final_Project/src/Mesh.h:230-274 | The header loop fills the position, normal and texture-coordinate tables in order, and grows the box from the sentinels by every position |
| `MeshLoaders.HeaderStep` | Final_Project/src/Mesh.h:232-260 | Each record extends exactly one table, as its tag says: `vn`, `vt`, or anything else as a position |
| `MeshLoaders.PositionsArePoints` | Final_Project/src/Mesh.h:252-256 | The flat position table holds point `i` at floats `3i`, `3i+1` and `3i+2` |
| `MeshLoaders.VtnBoxIsSentinelExtrema` | Final_Project/src/Mesh.h:218-274 | `load_vtn`'s maxima are `max(-1, all coordinates)` and its minima `min(10000, all coordinates)`: they contain every position, and each is the sentinel or attained |
| `MeshLoaders.SentinelLeaks` | Final_Project/src/Mesh.h:220-224 | The sentinel shows through: a mesh whose x coordinates all lie below -1 still gets `xmax = -1` |
| `MeshLoaders.CornerFloats` | Final_Project/src/Mesh.h:291-306 | A corner `a/b/c` contributes the three position floats from `(c-1)*3`, the three normal floats from `(a-1)*3` and the two texture floats from `(b-1)*2`, in that order |
| `MeshLoaders.FaceFloatsLayout` | Final_Project/src/Mesh.h:295-306 | Float `8j + k` of a face's block is float `k` of its corner `j` |
| `MeshLoaders.AssembleFaces` | Final_Project/src/Mesh.h:278-343 | The face loops append 24 floats per face, face after face |
| `MeshLoaders.AssembleLength` | Final_Project/src/Mesh.h:345-347 | The assembled buffer has `24 · faces` floats |
| `MeshLoaders.AssembleFaceBlock` | Final_Project/src/Mesh.h:310-343 | Float `24f + k` of the buffer is float `k` of face `f`'s block |
| `MeshLoaders.AssembleLayout` | Final_Project/src/Mesh.h:278-308 | Corner `j` of face `f` occupies floats `8(3f + j)` to `8(3f + j) + 7` of the buffer: its position, then its normal, then its texture coordinate |
| `MeshLoaders.LoadVtn` | Final_Project/src/Mesh.h:203-347 | `load_vtn` produces the assembled buffer, whose length is a multiple of 8, with `numVertices = 3 · faces` and the sentinel-seeded box |
| `MeshLoaders.IndexOf` | Final_Project/src/Mesh.h:533 | A face index is stored as `tmpu - 1` in unsigned arithmetic: one less for a positive index, and `0xFFFFFFFF` for 0 |
| `MeshLoaders.Load` | Final_Project/src/Mesh.h:467-538 | `load` stores six floats per vertex. Its buffer is the zero-normal vertex buffer after every face's `updateNormal`, in face order. It stores three indices per face, each minus one, sets `numIndices = 3 · faces`, and seeds the box from the first vertex |
| `MeshLoaders.VertexBufferLayout` | Final_Project/src/Mesh.h:486-515 | Before the face loop, vertex `i` of `load`'s buffer is its position followed by three zero normal slots |
| `MeshLoaders.IndexBufferLayout` | Final_Project/src/Mesh.h:526-536 | Index `3f + j` of `load`'s index list is corner `j` of face `f` minus one |
| `MeshLoaders.SetNormal` | Final_Project/src/Mesh.h:596-599 | Writing a normal changes the three normal slots of that vertex, which then read back as the normal, and no other float |
| `MeshLoaders.AccumulateEffect` | Final_Project/src/Mesh.h:592-600 | One corner's update sets that vertex's normal to `normalize(old normal + face normal)` and leaves every position and every other normal alone |
| `MeshLoaders.UpdateNormalEffect` | Final_Project/src/Mesh.h:580-600 | `updateNormal` keeps every position and the normal of every vertex the face does not touch. A touched vertex ends with a normalised vector |
| `MeshLoaders.ShadeEffect` | Final_Project/src/Mesh.h:526-536 | The face loop's normal updates keep every position and the normal of every vertex no face references. A referenced vertex ends with a normalised vector |
| `MeshLoaders.LoadedVertex` | Final_Project/src/Mesh.h:486-600 | For vertex `v`, `load` uploads the position read. The normal is zero when no face references `v`, and otherwise a unit vector, or zero where the summed normals cancel |
| `FaceStream.SkipSpace` | Final_Project/src/Mesh.h:500 | Skipping whitespace drops a prefix made only of blanks and stops at a non-blank or at the end |
| `FaceStream.DigitRun` | Final_Project/src/Mesh.h:531 | The number read is the longest run of digits at the front of the input |
| `FaceStream.ReadUnsigned` | Final_Project/src/Mesh.h:531 | `>> tmpu` never moves backwards, and on a failed stream it reads nothing and leaves `tmpu` alone. Its results on good input are stated by `FaceStream.ReadSpelled` and `FaceStream.ShiftedTriple` |
| `FaceStream.ReadSpelled` | Final_Project/src/Mesh.h:531 | Reading back an index written in decimal after a blank gives that index and leaves the stream good |
| `FaceStream.FaceLoop` | Final_Project/src/Mesh.h:526-536 | Each turn of the face loop pushes three indices and hands one triple to `updateNormal` |
| `FaceStream.ReadFaceLine` | Final_Project/src/Mesh.h:526-534 | Read from its tag, a face line `f a b c` yields the triple `(a, b, c)` and stops at the newline |
| `FaceStream.IntendedReadsRendered` | Final_Project/src/Mesh.h:526-536 | Read from the first face's tag, a well-formed face section yields every face in order and `load`'s index list |
| `FaceStream.ShiftedTriple` | Final_Project/src/Mesh.h:529-534 | Reading `b`, `c` and then a face tag gives the triple `(b, c, 0)` and leaves the stream failed at the tag |
| `FaceStream.ShiftedRead` | Final_Project/src/Mesh.h:500-536 | As written, a face line whose first index is one digit, followed by another face, yields one shifted triple `(b, c, 0)`, then the loop stops |
| `FaceStream.AsWrittenLosesFaces` | Final_Project/src/Mesh.h:500-536 | As written, a file whose first face starts with a one-digit index and has more faces after it keeps one triple, `(b, c, 0)`. Its 0 names no vertex, and the later faces are lost |
| `AssimpModel.NewAssimpMesh` | Final_Project/src/AssimpMesh.h:50-51 | A new `AssimpMesh` has `bloomR = 0.027` (inside the clamp range), zero angles and translation, the identity rotation and a zero box |
| `AssimpModel.ModelMatrix` | Final_Project/src/AssimpMesh.h:91-101 | `getModelMatrix` moves every point by `(0, -1.3, 0)`, because line 99 overwrites the composed matrix |
| `AssimpModel.ModelMatrixIsFixed` | Final_Project/src/AssimpMesh.h:91-101 | `getModelMatrix` is the same for every mesh and moves every point by `(0, -1.3, 0)`, because line 99 overwrites the composed matrix |
| `AssimpModel.BindTextures` | Final_Project/src/AssimpMesh.h:61-89 | Texture `i` is bound to unit `i + textureOffset`, and its sampler uniform is set to that unit. The uniform is named by its kind plus its 1-based rank among textures of that kind, for the four counted kinds, or by its bare kind otherwise |
| `AssimpModel.RankGrows` | Final_Project/src/AssimpMesh.h:75-82 | A later texture of the same kind gets a strictly larger number |
| `AssimpModel.UniformsDistinct` | Final_Project/src/AssimpMesh.h:73-85 | Two different textures of the four counted kinds never share a sampler uniform name |
| `AssimpModel.UncountedShareName` | Final_Project/src/AssimpMesh.h:73-85 | Textures of the same uncounted kind all get their bare kind as the uniform name |
| `Decimal.NatToString` | Final_Project/src/AssimpMesh.h:76 | `std::to_string` of a counter is a non-empty string of digits with no leading zero |
| `Decimal.ParseNatToString` | Final_Project/src/AssimpMesh.h:76-82 | Reading the spelling back gives the number |
| `Decimal.NatToStringInjective` | Final_Project/src/AssimpMesh.h:76-82 | Distinct counters are spelt differently |
| `Bloom.BlurPasses` | Final_Project/src/main.cpp:382-399 | Pass `i` renders into ping-pong buffer 1 when `i` is even and 0 when odd, with `horizontal` true on even passes. Pass 0 samples the bright scene and every later pass samples the buffer the pass before wrote. `horizontal` ends true exactly when the count is even |
| `Bloom.PassNeverReadsItsTarget` | Final_Project/src/main.cpp:387-397 | No pass samples the buffer it renders into |
| `Bloom.BlurredComposite` | Final_Project/src/main.cpp:382-411 | After at least one pass, the composite's `pingpongColorbuffers[!horizontal]` is the buffer the last pass wrote |
| `Bloom.ProgramComposite` | Final_Project/src/main.cpp:385-410 | With the program's 14 passes, the composite samples ping-pong buffer 0, the last one written |
| `Bloom.BloomOffSamplesScene` | Final_Project/src/main.cpp:412-415 | With bloom off, the composite samples the unblurred `colorBuffers[1]` |
| `Host.InitialGlobals` | Final_Project/src/main.cpp:51-86 | The globals start released, with `firstMouse` set, a zero timer, `mousePos = (800, 600)` and `last = (400, 300)`. The trackball radius is 600, bloom is on, toon and stencil are off, and the point light is at `r = 20`, `theta = 0`, `phi = 45` |
| `Host.MouseButton` | Final_Project/src/main.cpp:594-604 | `mouseState` changes only for the left button and only when `action != mouseState`. The trackball is re-anchored at `(mousePosX, mousePosY)` exactly on a transition to PRESS, and nothing else changes |
| `Host.MouseButtonRepeatIsNoOp` | Final_Project/src/main.cpp:596-598 | Delivering the same button event twice has the effect of delivering it once |
| `Host.MouseMove` | Final_Project/src/main.cpp:536-555 | The first cursor event passes offsets `(0, 0)` and clears `firstMouse`. Later events pass `(xpos - lastX, lastY - ypos)`. `last` becomes the position, and `mousePosX`/`mousePosY` are not written |
| `Host.MouseMoveTracked` | Final_Project/src/main.cpp:536-555 | This is the corrected cursor callback: it does the same as `mouse_callback`, and also stores the position in `mousePosX`/`mousePosY` |
| `Host.MouseOffsetsTelescope` | Final_Project/src/main.cpp:548-552 | Two cursor events report offsets that add up to the whole movement |
| `Host.Threshold` | Final_Project/src/main.cpp:52-53 | Every gated key has a positive threshold: 0.3 s for the toggles and 0.01 s for the arrows and WASD |
| `Host.ToggleInvisible` | Final_Project/src/main.cpp:530 | The T rule gives 0 or 0.85, and it gives 0 exactly when `invisible > 0.1` |
| `Host.ToggleInvisibleAlternates` | Final_Project/src/main.cpp:527-532 | From 0 or 0.85, T switches to the other level, and back |
| `Host.Fire` | Final_Project/src/main.cpp:469-532 | An accepted gated key resets the timer and changes exactly one global. Up/Down apply `updatePhi(±1)` and Right/Left apply `updateTheta(±1)`. W, S, A and D append one keyboard call with `deltaTime` to the camera calls. R, E and Q negate `toon`, `stencil` and `bloom`, and T toggles `invisible`. The mouse and trackball globals are untouched |
| `Host.FirstFiring` | Final_Project/src/main.cpp:469-532 | The key chosen is pressed and its threshold is below the timer, and no key before it in test order qualifies. There is none exactly when no key qualifies |
| `Host.RunGated` | Final_Project/src/main.cpp:469-532 | The gated `if`s leave the timer as it was or reset it to 0, and never request closing |
| `Host.NothingFiresAtZero` | Final_Project/src/main.cpp:469-532 | With the timer at or below zero, no gated branch fires |
| `Host.RunGatedFiresFirst` | Final_Project/src/main.cpp:469-532 | The gated `if`s fire at most one key, the first in test order that qualifies, because firing resets the timer below every threshold |
| `Host.ProcessInputFiresAtMostOnce` | Final_Project/src/main.cpp:463-533 | One `processInput` call requests closing on ESC whatever the timer, then fires at most one gated action |
| `Host.ProcessInput` | Final_Project/src/main.cpp:463-533 | After `processInput` the window is flagged to close exactly when it already was or ESC is down; the timer is kept or reset to 0 |
| `Host.RunGatedKeepsCursor` | Final_Project/src/main.cpp:463-533 | `processInput` leaves the mouse state, the cursor, the trackball and the model rotations alone |
| `Host.ApplyTrackball` | Final_Project/src/main.cpp:316-320 | The rotation is asked for and applied to the model only while `mouseState == PRESS`; otherwise the globals are unchanged |
| `Host.AdvanceTimer` | Final_Project/src/main.cpp:301-304 | Each frame adds `deltaTime` to the key timer and changes nothing else |
| `Host.Frame` | Final_Project/src/main.cpp:300-320 | After one frame the timer has grown by `deltaTime` or been reset by a key, closing follows ESC, and exactly one rotation is applied to the model when the left button is held and none otherwise |
| `HostSession.AnchoredInitially` | Final_Project/src/main.cpp:80-86 | The initial globals satisfy the session invariant: the cursor is at `(800, 600)`, the radius is 600, `front` is a unit vector and no rotation has been applied |
| `HostSession.ButtonKeepsAnchored` | Final_Project/src/main.cpp:594-604 | A button event keeps the invariant: a press anchors the trackball at the unchanged cursor |
| `HostSession.CursorKeepsAnchored` | Final_Project/src/main.cpp:536-555 | A cursor event keeps the invariant, since it never writes `mousePosX`/`mousePosY` |
| `HostSession.InputKeepsAnchored` | Final_Project/src/main.cpp:463-533 | A key poll keeps the invariant |
| `HostSession.AnchoredFrameIsStill` | Final_Project/src/main.cpp:316-320 | The trackball guard keeps the invariant: an anchored trackball queried at its anchor returns the dead-zone pair |
| `HostSession.FrameKeepsAnchored` | Final_Project/src/main.cpp:300-320 | One frame (timer, key poll, trackball guard) keeps the invariant |
| `HostSession.RunKeepsAnchored` | Final_Project/src/main.cpp:536-604 | Any sequence of button, cursor and frame events keeps the invariant |
| `HostSession.TrackballNeverTurns` | Final_Project/src/main.cpp:318 | As written, in every session every rotation the frame loop applies to the model is `((0,0,1), 0)` |
| `HostSession.NormalizeOnAxis` | Final_Project/src/Trackball.h:42-45 | Strictly outside the rim on the x axis, the lifted vector is `(±1, 0, 0)` |
| `HostSession.DragLeavesDeadZone` | Final_Project/src/Trackball.h:42-66 | A radius-600 ball anchored at `(800, 600)` leaves its dead zone when probed 1000 pixels to the side, so `nowVec` moves |
| `HostSession.PressAndDragRuns` | Final_Project/src/main.cpp:300-320 | A press, a tracked cursor move and one frame amount to the trackball guard applied after the key poll |
| `HostSession.DraggedState` | Final_Project/src/main.cpp:594-604 | A press from the released state anchors the trackball at the old cursor; the tracked drag then moves only the cursor |
| `HostSession.TrackedDragTurns` | Final_Project/src/main.cpp:536-555 | With the cursor position tracked, a press and a 1000-pixel drag move `nowVec` off its anchor `-front` after one frame, which as written never happens |

## Left out

- Floating point is not modelled: every scalar is an exact `real`. The 32-bit
  float rounding of glm and of the C++ code does not appear, and neither do
  NaN and infinity.
- `glm::normalize` of the zero vector gives NaN components in glm. Here it
  gives the zero vector, and `1 / 0` (used for `1 / cos(phi)` and for the
  normalising scale of a flat box) gives 0.
- `sqrt`, `acos`, `sin`, `cos`, `pi`, `glm::rotate` and `glm::lookAt` have
  no numeric content. They are uninterpreted fields of a parameter, and only
  the laws a lemma states as preconditions are assumed. `glm::radians` is
  computed from `pi`, whose value is left open.
- The OpenGL, GLAD and GLFW calls are not modelled. This covers buffers,
  framebuffers, textures, uniforms, draw calls and stencil state. In
  `bindTextures`, each texture's unit, uniform name and texture name are
  recorded as a `Binding` instead.
- The external `Camera`, `Model` and `Shader` classes are not part of this
  model. The calls the host makes on the camera, and the rotations it hands to
  the model, are recorded in order in the globals.
- `Skybox.h` and `my_texture_2d.h`/`.cpp` are not modelled: they are GL and
  image-loading wrappers with no logic of their own.
- The loaders' file handling is not modelled: the `std::cin` redirection and
  the float extractions. `load_vtn`'s input, and `load`'s vertices and faces,
  are sequences of records and index triples that are already split into
  tokens. Only `load`'s face loop is also followed character by character,
  in `FaceStream`.
- MeshLoaders.Load: models the face loop as the evidently intended reading,
  one triple per face. As written, the vertex loop takes the first face's
  `f`, and the face loop reads misaligned triples (see Findings and
  `FaceStream.AsWrittenLosesFaces`). `Load` also requires every index to name
  a vertex read, because any other index makes `updateNormal` read and write
  outside the buffer.
- MeshLoaders.VertexBufferLayout: describes the buffer before the face loop.
  `updateNormal` then overwrites the normal slots of every referenced vertex,
  as `MeshLoaders.LoadedVertex` states.
- FaceStream.ReadUnsigned: a leading `+` or `-` is treated as a non-digit
  (the read fails and stores 0). The C++ library accepts a sign and negates
  in unsigned arithmetic. Rendered face lines never carry a sign.
- `load_vtn` reads its first face before the second face loop and the rest
  inside it. Both assemble corners identically, so one loop models them.
- MeshLoaders.LoadVtn: requires at least one face and a header in groups of
  three, because the source reads those unconditionally.
- The source never checks that indices are in range. The model makes
  in-range 1-based indices a precondition of `load_vtn`'s assembly and of
  `load`'s normal updates.
- `getNormal` and `updateNormal` divide by a length that can be zero, giving
  NaN in C++. Here they go through `glm::normalize` as modelled above, so a
  zero length gives the zero vector.
- `Mesh::load` never sets `numVertices`, so the model of `load` does not carry it.
- `load_block`'s constant cube and the draw functions are not modelled.
- AssimpModel.BindTextures: the counters and texture units are unbounded
  `nat`s, so their 32-bit wrap after four billion textures is not modelled.
  The unsigned wrap of `tmpu - 1` in `load` is modelled, by `MeshLoaders.IndexOf`.
- The trackball's one- and three-argument constructors leave `front`, `up` and
  `right` uninitialised. Their indeterminate contents are parameters.
- AssimpModel.ModelMatrix: does not compute the rotation, translation and
  0.2-scale products that `getModelMatrix` builds and then discards.
- Frame timing (`glfwGetTime`) is not modelled: each frame's `deltaTime` is a
  parameter.
- Window closing is only recorded, as the `shouldClose` flag.
- GLFW's `REPEAT` action code and buttons other than the left one reach
  `mouse_button_callback` as plain integers, so they are handled by the same
  comparison as in the source.
- Host.Fire: for W, A, S and D it records a keyboard call on the external camera.
  Its effect on that camera is not part of this model.
- OrbitCamera.GetViewMatrix: only passes its arguments to `glm::lookAt`, whose
  matrix is not modelled. What is proved is the arguments it receives.

## Findings

| source | as written | input that shows it | evidently intended | confidence | as-written member | corrected member |
|---|---|---|---|---|---|---|
| Final_Project/src/main.cpp:536-555 | `mouse_callback` never writes `mousePosX`/`mousePosY`. They keep their initial `(800, 600)`, so every press anchors the trackball there (line 601) and every frame queries it there (line 318). The probe then lifts to `nowVec` itself, inside the dead zone, and every rotation applied to the model has angle 0 | Press the left button, move the cursor to `(1800, 600)` or `(-200, 600)`, and render one frame: the rotation applied is `((0,0,1), 0)` | The cursor callback stores the position in `mousePosX`/`mousePosY`, so a drag turns the model | not executed | `HostSession.TrackballNeverTurns` | `HostSession.TrackedDragTurns` |
| Final_Project/src/Mesh.h:500-536 | The vertex loop ends by extracting the first face's `f`, so the face loop's first `char` extraction takes the first digit of the first index instead. When the first index is a single digit, the reads then run one token ahead: the first triple is `(b, c, 0)`, because its third read meets the next face's `f`, fails and stores 0. `0 - 1` is pushed as `0xFFFFFFFF`, `updateNormal` indexes outside the buffer, and the failed stream ends the loop. When the first index has several digits, only its leading digit is lost: `f 12 3 4` reads as `(2, 3, 4)`, and the later faces are read correctly | A file with vertices, then `f 1 2 3` and at least one more face line | The first face is read with its tag, like every later one, so every face is read | not executed | `FaceStream.AsWrittenLosesFaces` | `FaceStream.IntendedReadsRendered` |
