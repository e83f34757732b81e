/** The skybox renderer: the six-face upload that fills the cubemap when a
    skybox is built, and the per-frame view-matrix treatment that makes the
    cube appear infinitely far away. GPU objects are modelled by the state
    the skybox code changes in them: a cubemap records the blits made into
    it, a surface records the draw calls submitted to it. */
module Skybox {
  import opened Geometry
  import opened Matrices

  datatype Option<T> = None | Some(value: T)

  /* ---------------------------------------------------------------------- */
  /* Cube layers */

  /** The six faces of a cube texture. */
  datatype CubeLayer = PositiveX | NegativeX | PositiveY | NegativeY | PositiveZ | NegativeZ

  /** The order in which the constructor uploads the faces. */
  const CubemapSides: seq<CubeLayer> :=
    [PositiveX, NegativeX, PositiveY, NegativeY, PositiveZ, NegativeZ]

  /** The graphics library's layer number of a face, taken to follow the
      OpenGL cube-map face order +X, -X, +Y, -Y, +Z, -Z. */
  function LayerIndex(layer: CubeLayer): (i: nat)
    ensures i < FaceCount
  {
    match layer
    case PositiveX => 0
    case NegativeX => 1
    case PositiveY => 2
    case NegativeY => 3
    case PositiveZ => 4
    case NegativeZ => 5
  }

  /** The upload order lists every face exactly once. */
  lemma SidesListEachLayerOnce()
    ensures |CubemapSides| == FaceCount
    ensures forall i, j :: 0 <= i < j < |CubemapSides| ==> CubemapSides[i] != CubemapSides[j]
    ensures forall layer :: layer in CubemapSides
  {
    forall layer
      ensures layer in CubemapSides
    {
      assert CubemapSides[LayerIndex(layer)] == layer;
    }
  }

  /** The upload order is the layer-number order, and layer numbering is a
      bijection onto 0..5: position k of the order holds the face numbered k. */
  lemma SidesFollowLayerIndex()
    ensures forall k :: 0 <= k < |CubemapSides| ==> LayerIndex(CubemapSides[k]) == k
    ensures forall layer :: CubemapSides[LayerIndex(layer)] == layer
  {
  }

  /* ---------------------------------------------------------------------- */
  /* Integer widths, blit rectangles and raw images */

  type Byte = x: int | 0 <= x < 0x100

  type U32 = x: int | 0 <= x < 0x1_0000_0000

  type I32 = x: int | -0x8000_0000 <= x < 0x8000_0000

  /** Rust's `x as i32` on a `u32`: the same 32 bits read as two's
      complement. */
  function AsI32(x: U32): (r: I32)
    ensures (r - x) % 0x1_0000_0000 == 0
    ensures r == x <==> x < 0x8000_0000
  {
    if x < 0x8000_0000 then x else x - 0x1_0000_0000
  }

  /** A destination rectangle of a blit: lower-left corner and signed size. */
  datatype BlitTarget = BlitTarget(left: U32, bottom: U32, width: I32, height: I32)

  /** The rectangle the constructor blits every face into. */
  function FaceRect(dimension: U32): (r: BlitTarget)
    ensures r.left == 0 && r.bottom == 0
    ensures r.width == r.height
  {
    BlitTarget(0, 0, AsI32(dimension), AsI32(dimension))
  }

  /** `rect` is exactly the whole of a `dimension` x `dimension` face. */
  predicate CoversFace(rect: BlitTarget, dimension: U32) {
    rect.left == 0 && rect.bottom == 0 && rect.width == dimension && rect.height == dimension
  }

  /** The face rectangle covers the whole face exactly when the dimension
      survives the cast to `i32`; from 2^31 on, width and height wrap to
      negative values. */
  lemma FaceRectCoversFace(dimension: U32)
    ensures CoversFace(FaceRect(dimension), dimension) <==> dimension < 0x8000_0000
  {
  }

  datatype ClientFormat = U8U8U8U8

  /** Uncompressed client-side pixel data with its claimed size. */
  datatype RawImage = RawImage(data: seq<Byte>, width: U32, height: U32, format: ClientFormat)

  /** `RawImage2d::from_raw_rgba`: label a byte buffer as a width x height
      image of four 8-bit channels. The buffer is taken as it is. */
  function FromRawRgba(data: seq<Byte>, width: U32, height: U32): (img: RawImage)
    ensures img.data == data && img.width == width && img.height == height
    ensures img.format == U8U8U8U8
  {
    RawImage(data, width, height, U8U8U8U8)
  }

  datatype MagnifySamplerFilter = Nearest | Linear

  /** One whole-colour blit of a temporary texture holding `image` into the
      face `layer` of the cubemap. */
  datatype Blit = Blit(layer: CubeLayer, image: RawImage, rect: BlitTarget, filter: MagnifySamplerFilter)

  /** The cube texture file the images come from: `sides[i]` is the RGBA
      data of the face with layer number i. */
  datatype CubemapFile = CubemapFile(dimension: U32, sides: seq<seq<Byte>>)

  /* ---------------------------------------------------------------------- */
  /* The upload plan */

  /** The blit the constructor makes for the face `layer`. */
  function FaceUpload(file: CubemapFile, layer: CubeLayer): (u: Blit)
    requires |file.sides| >= FaceCount
    ensures u.layer == layer && u.filter == Linear
    ensures u.image.data == file.sides[LayerIndex(layer)] && u.image.format == U8U8U8U8
    ensures u.image.width == file.dimension && u.image.height == file.dimension
    ensures CoversFace(u.rect, file.dimension) <==> file.dimension < 0x8000_0000
  {
    var i := LayerIndex(layer);
    Blit(layer, FromRawRgba(file.sides[i], file.dimension, file.dimension),
         FaceRect(file.dimension), Linear)
  }

  /** The blits the constructor makes, in order: one per entry of
      `CubemapSides`. */
  function UploadPlan(file: CubemapFile): (plan: seq<Blit>)
    requires |file.sides| >= FaceCount
    ensures |plan| == |CubemapSides|
  {
    seq(|CubemapSides|, k requires 0 <= k < |CubemapSides| => FaceUpload(file, CubemapSides[k]))
  }

  /** The image the last blit into `layer` put there, if any. A whole-face
      blit replaces everything earlier blits left in that face. */
  function LastImage(blits: seq<Blit>, layer: CubeLayer): (r: Option<RawImage>)
    ensures r == None <==> forall k :: 0 <= k < |blits| ==> blits[k].layer != layer
    ensures r.Some? ==> exists k :: (0 <= k < |blits| && blits[k].layer == layer && blits[k].image == r.value &&
                                     forall k' :: k < k' < |blits| ==> blits[k'].layer != layer)
  {
    if blits == [] then None
    else if blits[|blits| - 1].layer == layer then Some(blits[|blits| - 1].image)
    else LastImage(blits[..|blits| - 1], layer)
  }

  /** The plan visits the faces in the order +X, -X, +Y, -Y, +Z, -Z, each
      once, and blit k uploads `sides[k]` into the face with layer number k
      as a dimension x dimension RGBA image over the whole face. */
  lemma UploadPlanOrder(file: CubemapFile)
    requires |file.sides| >= FaceCount
    ensures |UploadPlan(file)| == FaceCount
    ensures forall k :: 0 <= k < FaceCount ==> UploadPlan(file)[k].layer == CubemapSides[k]
    ensures forall k :: 0 <= k < FaceCount ==> LayerIndex(UploadPlan(file)[k].layer) == k
    ensures forall k :: 0 <= k < FaceCount ==>
      UploadPlan(file)[k].image == FromRawRgba(file.sides[k], file.dimension, file.dimension)
    ensures forall k :: 0 <= k < FaceCount ==>
      UploadPlan(file)[k].rect == FaceRect(file.dimension) && UploadPlan(file)[k].filter == Linear
  {
    SidesFollowLayerIndex();
  }

  /** Every face is blitted exactly once: face `layer` at position
      `LayerIndex(layer)` of the plan, and no face at two positions. */
  lemma UploadPlanEachLayerOnce(file: CubemapFile)
    requires |file.sides| >= FaceCount
    ensures forall layer :: UploadPlan(file)[LayerIndex(layer)].layer == layer
    ensures forall i, j :: 0 <= i < j < |UploadPlan(file)| ==> UploadPlan(file)[i].layer != UploadPlan(file)[j].layer
  {
    SidesListEachLayerOnce();
    SidesFollowLayerIndex();
  }

  /** After the plan, each face holds the image built from the side with its
      layer number. */
  lemma UploadPlanFillsFaces(file: CubemapFile)
    requires |file.sides| >= FaceCount
    ensures forall layer ::
      LastImage(UploadPlan(file), layer) == Some(FromRawRgba(file.sides[LayerIndex(layer)], file.dimension, file.dimension))
  {
    var plan := UploadPlan(file);
    UploadPlanEachLayerOnce(file);
    forall layer
      ensures LastImage(plan, layer) == Some(FromRawRgba(file.sides[LayerIndex(layer)], file.dimension, file.dimension))
    {
      var r := LastImage(plan, layer);
      assert plan[LayerIndex(layer)].layer == layer;
      var k :| 0 <= k < |plan| && plan[k].layer == layer && plan[k].image == r.value;
      assert plan[k] == FaceUpload(file, CubemapSides[k]);
    }
  }

  /* ---------------------------------------------------------------------- */
  /* GPU-side objects */

  /** A cube texture of fixed dimension; `blits` is every blit made into its
      faces, oldest first. */
  class Cubemap {
    const dimension: U32
    var blits: seq<Blit>

    /** `Cubemap::empty`: allocated, nothing uploaded yet. */
    constructor Empty(dimension: U32)
      ensures this.dimension == dimension && blits == []
    {
      this.dimension := dimension;
      blits := [];
    }

    /** What face `layer` currently shows. */
    function Face(layer: CubeLayer): (r: Option<RawImage>)
      reads this
      ensures r == None <==> forall k :: 0 <= k < |blits| ==> blits[k].layer != layer
      ensures r.Some? ==> exists k :: (0 <= k < |blits| && blits[k].layer == layer && blits[k].image == r.value &&
                                       forall k' :: k < k' < |blits| ==> blits[k'].layer != layer)
    {
      LastImage(blits, layer)
    }

    /** Blit the whole of a texture holding `image` into `rect` of face
      `layer`. */
    method BlitWholeColorTo(layer: CubeLayer, image: RawImage, rect: BlitTarget, filter: MagnifySamplerFilter)
      modifies this
      ensures blits == old(blits) + [Blit(layer, image, rect, filter)]
      ensures Face(layer) == Some(image)
      ensures forall other :: other != layer ==> Face(other) == old(Face(other))
    {
      blits := blits + [Blit(layer, image, rect, filter)];
      assert blits[..|blits| - 1] == old(blits);
    }
  }

  datatype PrimitiveType = TrianglesList

  datatype IndexBuffer = IndexBuffer(primitive: PrimitiveType, indices: seq<U16>)

  /** A shader program: GLSL version and the names of the two shader
      sources, whose text is not part of this model. */
  datatype Program = Program(glslVersion: nat, vertexShader: string, fragmentShader: string)

  const SkyboxProgram := Program(140, "../../shaders/skybox/vert.glsl", "../../shaders/skybox/frag.glsl")

  /** The values bound for one draw: the matrix and the sampled cubemap. */
  datatype Uniforms = Uniforms(mvp: Matrix4, cubetex: Cubemap, magnify: MagnifySamplerFilter)

  datatype DrawCall<P> = DrawCall(vertices: seq<Vertex>, indices: IndexBuffer, program: Program,
                                  uniforms: Uniforms, params: P)

  /** A render target; `draws` is every draw call submitted to it, oldest
      first. `P` stands for the caller's draw parameters, passed through. */
  class Surface<P> {
    var draws: seq<DrawCall<P>>

    method Draw(call: DrawCall<P>)
      modifies this
      ensures draws == old(draws) + [call]
    {
      draws := draws + [call];
    }
  }

  /* ---------------------------------------------------------------------- */
  /* The view-matrix treatment */

  /** Keep the upper-left 3x3 block of `view` and re-embed it with no
      translation and a 1 in the corner. */
  function StripTranslation(view: Matrix4): (r: Matrix4)
    ensures forall c, i :: 0 <= c < 3 && 0 <= i < 3 ==> r[c][i] == view[c][i]
    ensures forall c :: 0 <= c < 3 ==> r[c][3] == 0.0
    ensures r[3] == [0.0, 0.0, 0.0, 1.0]
  {
    Extend(FromCols(Truncate(view[0]), Truncate(view[1]), Truncate(view[2])))
  }

  /** `view` has no translation and no projective row: its fourth column
      and fourth row are those of the identity. */
  predicate IsLinearPart(view: Matrix4) {
    view[3] == [0.0, 0.0, 0.0, 1.0] && view[0][3] == 0.0 && view[1][3] == 0.0 && view[2][3] == 0.0
  }

  /** Two matrices agree on their upper-left 3x3 block. */
  predicate SameLinearBlock(a: Matrix4, b: Matrix4) {
    forall c, i :: 0 <= c < 3 && 0 <= i < 3 ==> a[c][i] == b[c][i]
  }

  /** The strip depends on nothing but the upper-left block: translation and
      fourth-row entries of the view make no difference. */
  lemma StripDependsOnlyOnBlock(a: Matrix4, b: Matrix4)
    requires SameLinearBlock(a, b)
    ensures StripTranslation(a) == StripTranslation(b)
  {
    MatrixExt(StripTranslation(a), StripTranslation(b));
  }

  /** The strip keeps exactly the matrices with no translation and fourth
      row (0, 0, 0, 1): its result always is one, and a view is unchanged by
      it if and only if it is. */
  lemma StripFixesLinearPart(view: Matrix4)
    ensures IsLinearPart(StripTranslation(view))
    ensures StripTranslation(view) == view <==> IsLinearPart(view)
  {
    if IsLinearPart(view) {
      var s := StripTranslation(view);
      assert s[3] == view[3];
      MatrixExt(s, view);
    }
  }

  /** Stripping twice is stripping once. */
  lemma StripIdempotent(view: Matrix4)
    ensures StripTranslation(StripTranslation(view)) == StripTranslation(view)
  {
    StripFixesLinearPart(view);
    StripFixesLinearPart(StripTranslation(view));
  }

  /** A pure translation strips to the identity. */
  lemma StripTranslationMatrix(t: Vector3)
    ensures StripTranslation(Translation(t)) == Identity
  {
    MatrixExt(StripTranslation(Translation(t)), Identity);
  }

  /** A camera view made of a linear part `rotation` applied after a
      translation strips to the linear part alone, wherever the camera
      stands. */
  lemma StripCameraView(rotation: Matrix3, t: Vector3)
    ensures StripTranslation(Mul(Extend(rotation), Translation(t))) == Extend(rotation)
  {
    var v := Mul(Extend(rotation), Translation(t));
    forall c, i | 0 <= c < 3 && 0 <= i < 3
      ensures v[c][i] == rotation[c][i]
    {
      assert c == 0 || c == 1 || c == 2;
    }
    MatrixExt(StripTranslation(v), Extend(rotation));
  }

  /** The matrix bound as `mvp`: projection times the stripped view. Its
      first three columns combine the projection with the view's 3x3 block
      alone, and its last column is the projection's. */
  function Mvp(projection: Matrix4, view: Matrix4): (m: Matrix4)
    ensures forall c, r :: 0 <= c < 3 && 0 <= r < 4 ==>
      m[c][r] == projection[0][r] * view[c][0] + projection[1][r] * view[c][1] + projection[2][r] * view[c][2]
    ensures m[3] == projection[3]
  {
    Mul(projection, StripTranslation(view))
  }

  /** A view without translation is used as it is. */
  lemma MvpOfLinear(projection: Matrix4, view: Matrix4)
    requires IsLinearPart(view)
    ensures Mvp(projection, view) == Mul(projection, view)
  {
    StripFixesLinearPart(view);
  }

  /** Camera translation has no effect on the bound matrix. */
  lemma MvpIgnoresTranslation(projection: Matrix4, a: Matrix4, b: Matrix4)
    requires SameLinearBlock(a, b)
    ensures Mvp(projection, a) == Mvp(projection, b)
  {
    StripDependsOnlyOnBlock(a, b);
  }

  /** A view that only translates binds the projection itself, as the
      identity view does. */
  lemma MvpOfTranslation(projection: Matrix4, t: Vector3)
    ensures Mvp(projection, Translation(t)) == projection
    ensures Mvp(projection, Identity) == projection
  {
    StripTranslationMatrix(t);
    MulIdentity(projection);
    StripFixesLinearPart(Identity);
  }

  /* ---------------------------------------------------------------------- */
  /* The skybox */

  class Skybox {
    const vbo: seq<Vertex>
    const ibo: IndexBuffer
    const cubemap: Cubemap
    const program: Program

    /** `Skybox::new`: upload the cube mesh, compile the program and fill a
        fresh cubemap face by face in the order of `CubemapSides`. */
    constructor (file: CubemapFile)
      requires |file.sides| >= FaceCount
      ensures vbo == CubeVertices && ibo == IndexBuffer(TrianglesList, CubeIndices)
      ensures program == SkyboxProgram
      ensures fresh(cubemap) && cubemap.dimension == file.dimension
      ensures cubemap.blits == UploadPlan(file)
      ensures forall layer ::
        cubemap.Face(layer) == Some(FromRawRgba(file.sides[LayerIndex(layer)], file.dimension, file.dimension))
    {
      var dimension := file.dimension;
      var sides := file.sides;
      var c := new Cubemap.Empty(dimension);
      var blitRect := FaceRect(dimension);
      for n := 0 to |CubemapSides|
        invariant c.blits == UploadPlan(file)[..n]
      {
        var side := CubemapSides[n];
        var i := LayerIndex(side);
        var image := FromRawRgba(sides[i], dimension, dimension);
        c.BlitWholeColorTo(side, image, blitRect, Linear);
      }
      assert c.blits == UploadPlan(file);
      UploadPlanFillsFaces(file);
      vbo := CubeVertices;
      ibo := IndexBuffer(TrianglesList, CubeIndices);
      program := SkyboxProgram;
      cubemap := c;
    }

    /** `Skybox::render`: one indexed draw of the cube with the stripped
        view and the cubemap sampled with linear magnification. */
    method Render<P>(surface: Surface<P>, projection: Matrix4, view: Matrix4, params: P)
      modifies surface
      ensures surface.draws == old(surface.draws) +
        [DrawCall(vbo, ibo, program, Uniforms(Mvp(projection, view), cubemap, Linear), params)]
    {
      var v := FromCols(Truncate(view[0]), Truncate(view[1]), Truncate(view[2]));
      var stripped := Extend(v);
      var mvp := Mul(projection, stripped);
      surface.Draw(DrawCall(vbo, ibo, program, Uniforms(mvp, cubemap, Linear), params));
    }
  }
}
