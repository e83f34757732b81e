# Skybox renderer of hlbsp-viewer, modelled in Dafny

The skybox draws a six-face cube texture on a unit cube around the
camera. Three parts of its renderer can be stated exactly, and this
project models and proves them:

- **Cube mesh (`Geometry`, geometry.dfy).** The constant vertex table
  `CubeVertices` has 24 positions, four per face. The constant index table
  `CubeIndices` has 36 `u16` entries, making 12 triangles. Every
  coordinate is exactly -1.0 or +1.0, so the model uses integers, and
  range, face grouping and winding become exact integer facts. The
  winding proof shows that vertex group k traces a square: an origin plus
  two edge vectors. It then shows that splitting
  a square into the triangles (0, 2, 1) and (0, 3, 2) gives both triangles
  the normal e2 × e1, and that for every face this normal points from the
  face plane towards the centre of the cube.
- **Face upload (`Skybox`, skybox.dfy).** The constructor walks the fixed
  face order +X, -X, +Y, -Y, +Z, -Z (`CubemapSides`). For each face it
  picks the file's byte buffer at that face's layer number, reads the
  buffer as a dimension × dimension RGBA image, then blits the image into
  that face over the rectangle (0, 0, dimension as i32, dimension as i32).
  - `Cubemap` is a class whose `blits` field records every blit made into
    it.
  - The constructor's loop is proved against `UploadPlan`, the function
    listing the six blits.
  - The lemmas about `UploadPlan` show that each face is written once, in
    order, with the right bytes.
- **View-matrix treatment (`Skybox` with `Matrices`, matrices.dfy).** `render`
  keeps the upper-left 3×3 block of the column-major view matrix and
  re-embeds it with zero translation. The projection is then multiplied
  by the result.
  - The strip is proved to keep only that block, to be idempotent, to fix
    exactly the matrices with no translation and fourth row (0, 0, 0, 1),
    and to ignore the camera position.
  - The product is exact real arithmetic.
  - `Surface` is a class whose `draws` field records every draw call.

Inputs from outside `render/src/skybox/mod.rs` are parameters:

- The cube-texture file is a `CubemapFile` value: a `u32` dimension and a
  sequence of byte buffers.
- The caller's draw parameters are a type parameter, passed through
  unchanged.
- The graphics library's `CubeLayer::get_layer_index` is `LayerIndex`.
  The model assumes it follows the OpenGL cube-map face order
  (+X, -X, +Y, -Y, +Z, -Z ↦ 0..5).
- cgmath's `truncate`, `Matrix3::from_cols`, `Matrix4::from(Matrix3)` and
  matrix product are defined in `Matrices` as cgmath documents them.

What the code does not check:

- The code does not check the face images' sizes before allocating; no
  "invalid texture dimensions" error exists in it.
- Every failure in the code is a panic (an `unwrap`, or the index
  `sides[i]` at mod.rs:151), not a returned error.
- The code makes no check that a face buffer holds 4 · dimension² bytes.
  `FromRawRgba` takes the buffer as it is.

## Model

| member | source | states |
|---|---|---|
| Geometry.IndicesInRange | render/src/skybox/mod.rs:25-103 | There are 24 vertices and 36 indices, which divide into 12 triangles, and every index is below 24, so each one is valid for the vertex table. |
| Geometry.IndexEntry | render/src/skybox/mod.rs:100-103 | Index entry i is entry i % 6 of face (i / 6)'s pattern (4k, 4k+2, 4k+1, 4k, 4k+3, 4k+2). |
| Geometry.IndexFaceStructure | render/src/skybox/mod.rs:101-102 | For each face k, the slice 6k..6k+5 of the index table equals (4k, 4k+2, 4k+1, 4k, 4k+3, 4k+2). |
| Geometry.IndexWithinOwnFace | render/src/skybox/mod.rs:101-102 | Every index at position i names a vertex of vertex group i / 6, so no triangle uses a vertex of another face. |
| Geometry.FaceIndices | render/src/skybox/mod.rs:101-102 | Face k's index pattern has six entries, each 4k plus the matching entry of the quad pattern (0, 2, 1, 0, 3, 2), so all lie in 4k..4k+3. |
| Geometry.VerticesAreCubeCorners | render/src/skybox/mod.rs:25-98 | Every coordinate of every vertex is exactly -1 or +1. |
| Geometry.VertexEntry | render/src/skybox/mod.rs:25-98 | Vertex i is corner i % 4 of face (i / 4)'s square, taken in boundary order. |
| Geometry.FaceSquareOnPlane | render/src/skybox/mod.rs:25-98 | Face k's square has its origin on face k's plane and both edges parallel to that plane. |
| Geometry.FacePlane | render/src/skybox/mod.rs:25-98 | Each face plane is x, y or z equal to +1 or -1; the planes are z=+1, x=+1, z=-1, x=-1, y=-1, y=+1 for k = 0..5. |
| Geometry.VerticesOnFacePlanes | render/src/skybox/mod.rs:25-98 | The four vertices of group k lie in face k's plane. |
| Geometry.SquareCornersOnPlane | render/src/skybox/mod.rs:25-98 | Any square whose origin is on an axis plane and whose edges are parallel to it has all four corners on the plane. |
| Geometry.SquareTriangleNormals | render/src/skybox/mod.rs:100-103 | For any square, the triangles (0, 2, 1) and (0, 3, 2) both have winding normal e2 × e1. |
| Geometry.FaceSquareInward | render/src/skybox/mod.rs:25-98 | For every face, e2 × e1 of its square is four times the face's inward unit normal. |
| Geometry.InwardNormalDot | render/src/skybox/mod.rs:25-98 | Any point on face k's plane has dot product -4 with the face's inward normal. |
| Geometry.TriangleVertexOnSquare | render/src/skybox/mod.rs:25-103 | Vertex j of triangle t, looked up through both tables, is the square corner that the quad pattern names for triangle t % 2 of face t / 2. |
| Geometry.TriangleNormal | render/src/skybox/mod.rs:25-103 | Triangle t's winding normal (b - a) × (c - a) is the e2 × e1 of its face's square. |
| Geometry.TriangleInward | render/src/skybox/mod.rs:25-103 | Triangle t's winding normal is four times the inward unit normal of face t / 2. |
| Geometry.NormalsPointInward | render/src/skybox/mod.rs:25-103 | The same statement for all 12 triangles. |
| Geometry.TriangleFacesOrigin | render/src/skybox/mod.rs:25-103 | Triangle t's winding normal is nonzero and has negative dot product with its first corner, so it points towards the origin. |
| Geometry.WindingFacesOrigin | render/src/skybox/mod.rs:25-103 | The same statement for all 12 triangles, so the winding is consistent and faces inward. |
| Geometry.FaceTrianglesShareNormal | render/src/skybox/mod.rs:25-103 | The two triangles of each face have the same winding normal. |
| Matrices.Truncate | render/src/skybox/mod.rs:179 | `truncate` keeps the first three components of a column. |
| Matrices.FromCols | render/src/skybox/mod.rs:179 | `Matrix3::from_cols` makes its three arguments the columns, in order. |
| Matrices.Extend | render/src/skybox/mod.rs:180 | `Matrix4::from` keeps the 3×3 entries, puts 0 in row 3 of columns 0..2, and makes column 3 equal to (0, 0, 0, 1). |
| Matrices.Mul | render/src/skybox/mod.rs:181 | Entry (c, r) of the product is row r of the left factor times column c of the right factor. |
| Matrices.MulIdentity | render/src/skybox/mod.rs:181 | Multiplying by the identity on the right leaves a matrix unchanged. |
| Skybox.LayerIndex | render/src/skybox/mod.rs:150 | Every face's layer number is below 6. |
| Skybox.SidesListEachLayerOnce | render/src/skybox/mod.rs:105-112 | The face order has six entries, no repeats, and contains every face. |
| Skybox.SidesFollowLayerIndex | render/src/skybox/mod.rs:105-112 | Position k of the face order holds the face with layer number k, and every face sits at the position of its own layer number. |
| Skybox.AsI32 | render/src/skybox/mod.rs:144-145 | `as i32` keeps the value modulo 2^32, and leaves it unchanged exactly when it is below 2^31. |
| Skybox.FaceRect | render/src/skybox/mod.rs:141-146 | The blit rectangle has left = bottom = 0, and its width equals its height. |
| Skybox.FaceRectCoversFace | render/src/skybox/mod.rs:141-146 | The blit rectangle is exactly (0, 0, dimension, dimension) if and only if dimension < 2^31. |
| Skybox.FromRawRgba | render/src/skybox/mod.rs:151 | The image keeps the given bytes, width and height, with the four-8-bit-channel RGBA format. |
| Skybox.FaceUpload | render/src/skybox/mod.rs:150-159 | The blit for one face targets that face with linear filtering. It carries the buffer at the face's layer number, as a dimension × dimension RGBA image, over a rectangle that covers the whole face if and only if dimension < 2^31. |
| Skybox.UploadPlan | render/src/skybox/mod.rs:148-162 | The plan holds one blit per entry of the face order. |
| Skybox.LastImage | render/src/skybox/mod.rs:155-159 | A face holds no image if and only if no blit targeted it; otherwise it holds the image of the last blit into that face. |
| Skybox.UploadPlanOrder | render/src/skybox/mod.rs:141-162 | Blit k targets face k of +X, -X, +Y, -Y, +Z, -Z (layer number k). It carries `sides[k]` as a dimension × dimension RGBA image, over the blit rectangle, with linear filtering. |
| Skybox.UploadPlanEachLayerOnce | render/src/skybox/mod.rs:148-162 | Every face is blitted, at the position of its layer number, and no face is blitted twice. |
| Skybox.UploadPlanFillsFaces | render/src/skybox/mod.rs:148-162 | After the plan, every face holds the RGBA image built from the side with its layer number. |
| Skybox.Cubemap.Empty | render/src/skybox/mod.rs:140 | A new cubemap has the file's dimension and has received no blits. |
| Skybox.Cubemap.Face | render/src/skybox/mod.rs:154-159 | A face shows nothing if and only if no blit targeted it; otherwise it shows the image of the last blit into that face. |
| Skybox.Cubemap.BlitWholeColorTo | render/src/skybox/mod.rs:155-159 | A blit is appended to the cubemap's log; the target face now shows the image and every other face is unchanged. |
| Skybox.Skybox.constructor | render/src/skybox/mod.rs:121-170 | Builds a skybox holding the cube tables as a triangle list and the version-140 program. Its loop leaves the fresh cubemap's log equal to the upload plan, so every face holds its side's image. |
| Skybox.StripTranslation | render/src/skybox/mod.rs:179-180 | The stripped view keeps entries (c, r) for c, r < 3. Rows 3 of columns 0..2 are 0, and column 3 is (0, 0, 0, 1). |
| Skybox.StripDependsOnlyOnBlock | render/src/skybox/mod.rs:179-180 | Two views that agree on their upper-left 3×3 block strip to the same matrix, so translation and fourth-row entries have no effect. |
| Skybox.StripFixesLinearPart | render/src/skybox/mod.rs:179-180 | The strip always gives a matrix with no translation and fourth row (0, 0, 0, 1), and leaves a view unchanged if and only if the view has no translation and fourth row (0, 0, 0, 1). |
| Skybox.StripIdempotent | render/src/skybox/mod.rs:179-180 | Stripping twice gives the same result as stripping once. |
| Skybox.StripTranslationMatrix | render/src/skybox/mod.rs:179-180 | A pure translation strips to the identity. |
| Skybox.StripCameraView | render/src/skybox/mod.rs:179-180 | A view made of a linear part applied after any translation strips to the linear part alone. |
| Skybox.Mvp | render/src/skybox/mod.rs:179-181 | Columns 0..2 of mvp combine the projection with the view's 3×3 block alone, and column 3 of mvp is column 3 of the projection. |
| Skybox.MvpOfLinear | render/src/skybox/mod.rs:179-181 | A view with no translation and identity fourth row is used as it is: mvp is projection × view. |
| Skybox.MvpIgnoresTranslation | render/src/skybox/mod.rs:179-181 | Views with the same 3×3 block give the same bound mvp matrix. |
| Skybox.MvpOfTranslation | render/src/skybox/mod.rs:179-181 | A translation-only view and the identity view both give the projection itself as mvp. |
| Skybox.Surface.Draw | render/src/skybox/mod.rs:188-190 | A draw call is appended to the surface's log, and nothing else changes. |
| Skybox.Skybox.Render | render/src/skybox/mod.rs:172-191 | Exactly one draw call is appended: the skybox's mesh and program, with mvp = projection × stripped view, the cubemap with linear magnification, and the caller's parameters. |

## Left out

- GPU resource creation (`VertexBuffer::new`, `IndexBuffer::new`, `Cubemap::empty`, `Texture2d::new`, `SimpleFrameBuffer::new`) and its `unwrap` panics. These are foreign graphics-library calls; the model keeps only the state the skybox code puts into them.
- Shader compilation by `program!` and the GLSL sources included by `include_str!`. Those files are not part of this model; `Program` records the version and the file names only.
- Pixel-level effects of the blit, cubemap sampling and rasterisation by `surface.draw`. These are GPU side effects; the model records the blit and draw calls with their arguments.
- `f32` rounding in `projection * view`. `Matrices.Mul` is the exact real product. `mvp.into()` only re-types the matrix as `[[f32; 4]; 4]`, so the model leaves the column-major entries as they are.
- `measure_time` and `debug!` timing logs. These are a diagnostic side channel only.
- `CubemapFile::dimension` and `CubemapFile::sides`. Their code is not part of this model; they are the fields of the `CubemapFile` input.
- `LayerIndex`: stands for `CubeLayer::get_layer_index`, whose code is not part of this model. It is assumed to number the faces +X, -X, +Y, -Y, +Z, -Z as 0..5.
- Skybox.Skybox.constructor: requires at least six side buffers. With fewer, `sides[i]` would panic on an out-of-range index, and that panic is not modelled.
- Skybox.Skybox.Render: the `unwrap` of a failed draw (a panic) is not modelled.
- Skybox.LastImage: as a face's content it assumes every blit covers the whole face. That holds for the upload plan while dimension < 2^31, as `FaceRectCoversFace` shows.
- Skybox.Cubemap.Face: rests on the same whole-face assumption as `LastImage`; a blit over part of a face is not modelled as leaving the rest of the earlier image in place.
- Skybox.Cubemap.BlitWholeColorTo: "the target face now shows the image" rests on the same whole-face assumption, whatever `rect` is passed.
