/** The staged vertex pipeline (GraphicPipeline): a model transformation,
    a camera and a viewport, with the model-view-projection product cached
    in a field. A vertex goes through the stages in the order of the
    TransformSpace enumeration and stops at the space asked for. */
module GraphicPipelines {
  import opened Wrappers
  import opened JavaMath
  import opened Linear
  import opened Mesh
  import V2 = Vector2
  import V3 = Vector3
  import M4 = Matrix4
  import M3 = Matrix3
  import Transformations
  import GraphicsCamera
  import Models
  import ModelsOld

  /** The coordinate spaces, in the order the stages reach them. */
  datatype TransformSpace = LOCAL_SPACE | WORLD_SPACE | VIEW_SPACE | CLIP_SPACE | NDC_SPACE | SCREEN_SPACE
  {
    /** The position of the constant in the enumeration (Enum.ordinal). */
    function Ordinal(): nat
    {
      match this
      case LOCAL_SPACE => 0
      case WORLD_SPACE => 1
      case VIEW_SPACE => 2
      case CLIP_SPACE => 3
      case NDC_SPACE => 4
      case SCREEN_SPACE => 5
    }
  }

  /** The mesh the pipeline reads and builds: the vertex, texture-vertex
      and normal lists (the last two may be null) and the polygons. */
  datatype MeshData = MeshData(
    vertices: seq<V3.Vector3f>,
    textureVertices: Option<seq<V2.Vector2f>>,
    normals: Option<seq<V3.Vector3f>>,
    polygons: seq<Polygon>)

  /** ndcToScreen: x from [-1, 1] to [0, width], y flipped from [-1, 1] to
      [height, 0], depth kept. */
  function NdcToScreen(ndc: V3.Vector3f, width: int, height: int): V3.Vector3f
  {
    V3.Vector3f((ndc.x + 1.0) * 0.5 * width as real, (1.0 - ndc.y) * 0.5 * height as real, ndc.z)
  }

  /** screenToNDC: the inverse mapping, dividing by the viewport size with
      float division (a zero size gives the division-by-zero values). */
  function ScreenToNdc(screen: V3.Vector3f, width: int, height: int): V3.Vector3f
  {
    V3.Vector3f(Div(screen.x, width as real) * 2.0 - 1.0, 1.0 - Div(screen.y, height as real) * 2.0, screen.z)
  }

  /** The top-left corner of NDC lands on pixel (0, 0) and the bottom-right
      one on (width, height); the centre on the middle of the viewport. */
  lemma NdcToScreenCorners(z: real, width: int, height: int)
    ensures NdcToScreen(V3.Vector3f(-1.0, 1.0, z), width, height) == V3.Vector3f(0.0, 0.0, z)
    ensures NdcToScreen(V3.Vector3f(1.0, -1.0, z), width, height) == V3.Vector3f(width as real, height as real, z)
    ensures NdcToScreen(V3.Vector3f(0.0, 0.0, z), width, height) == V3.Vector3f(width as real / 2.0, height as real / 2.0, z)
  {
  }

  /** On a viewport of positive size the two mappings are inverse to each
      other, in both orders. */
  lemma {:induction false} ScreenNdcRoundTrip(p: V3.Vector3f, width: int, height: int)
    requires width > 0 && height > 0
    ensures ScreenToNdc(NdcToScreen(p, width, height), width, height) == p
    ensures NdcToScreen(ScreenToNdc(p, width, height), width, height) == p
  {
    ScaleBack(p.x + 1.0, width as real);
    ScaleBack(1.0 - p.y, height as real);
    DivideBack(p.x, width as real);
    DivideBack(p.y, height as real);
  }

  lemma ScaleBack(a: real, w: real)
    requires w > 0.0
    ensures Div(a * 0.5 * w, w) * 2.0 == a
  {
    var q := Div(a * 0.5 * w, w);
    assert q * w == a * 0.5 * w;
    assert (q - a * 0.5) * w == 0.0;
  }

  lemma DivideBack(a: real, w: real)
    requires w > 0.0
    ensures ((Div(a, w) * 2.0 - 1.0) + 1.0) * 0.5 * w == a
    ensures (1.0 - (1.0 - Div(a, w) * 2.0)) * 0.5 * w == a
  {
    assert Div(a, w) * w == a;
  }

  /** transformVertex(vertex, modelMatrix, outputSpace): each stage runs
      when the output space lies beyond the space the stage starts from.
      The NDC stage does nothing, and the matrix product here does not
      divide by w, so NDC and screen outputs are undivided. */
  function StageVertex(v: V3.Vector3f, model: Mat4, view: Mat4, projection: Mat4,
                       width: int, height: int, outputSpace: TransformSpace): V3.Vector3f
  {
    var world := if outputSpace.Ordinal() > LOCAL_SPACE.Ordinal() then M4.Transform(model, v) else v;
    var eye := if outputSpace.Ordinal() > WORLD_SPACE.Ordinal() then M4.Transform(view, world) else world;
    var clip := if outputSpace.Ordinal() > VIEW_SPACE.Ordinal() then M4.Transform(projection, eye) else eye;
    if outputSpace.Ordinal() > NDC_SPACE.Ordinal() then NdcToScreen(clip, width, height) else clip
  }

  /** What each output space receives: the local space is the input itself,
      and every later space applies one more stage, except NDC, which
      equals clip space. */
  lemma StagesByOrder(v: V3.Vector3f, model: Mat4, view: Mat4, projection: Mat4, width: int, height: int)
    ensures StageVertex(v, model, view, projection, width, height, LOCAL_SPACE) == v
    ensures StageVertex(v, model, view, projection, width, height, WORLD_SPACE) == M4.Transform(model, v)
    ensures StageVertex(v, model, view, projection, width, height, VIEW_SPACE)
            == M4.Transform(view, StageVertex(v, model, view, projection, width, height, WORLD_SPACE))
    ensures StageVertex(v, model, view, projection, width, height, CLIP_SPACE)
            == M4.Transform(projection, StageVertex(v, model, view, projection, width, height, VIEW_SPACE))
    ensures StageVertex(v, model, view, projection, width, height, NDC_SPACE)
            == StageVertex(v, model, view, projection, width, height, CLIP_SPACE)
    ensures StageVertex(v, model, view, projection, width, height, SCREEN_SPACE)
            == NdcToScreen(StageVertex(v, model, view, projection, width, height, NDC_SPACE), width, height)
  {
  }

  /** With an affine model matrix, the view stage equals one product by
      V·M, the matrix the cached MVP starts from. */
  lemma ViewStageIsProduct(v: V3.Vector3f, model: Mat4, view: Mat4, projection: Mat4, width: int, height: int)
    requires M4.IsAffine(model)
    ensures StageVertex(v, model, view, projection, width, height, VIEW_SPACE) == M4.Transform(M4.Product(view, model), v)
  {
    M4.TransformProduct(view, model, v);
  }

  /** With affine model and view matrices, the clip stage equals one
      product by the cached P·(V·M). */
  lemma ClipStageIsMvp(v: V3.Vector3f, model: Mat4, view: Mat4, projection: Mat4, width: int, height: int)
    requires M4.IsAffine(model) && M4.IsAffine(view)
    ensures StageVertex(v, model, view, projection, width, height, CLIP_SPACE)
            == M4.Transform(M4.Product(projection, M4.Product(view, model)), v)
  {
    M4.AffineProduct(view, model);
    M4.TransformProduct(projection, M4.Product(view, model), v);
    M4.TransformProduct(view, model, v);
  }

  /** The vertex loop of transformModel: each vertex through
      transformVertex(vertex, WORLD_SPACE), which is the model matrix
      product, or copied as it is. */
  method TransformVertices(m: Mat4, vertices: seq<V3.Vector3f>, includeTransformations: bool)
    returns (r: seq<V3.Vector3f>)
    ensures r == if includeTransformations then Models.TransformAll(m, vertices) else vertices
  {
    r := [];
    for i := 0 to |vertices|
      invariant |r| == i
      invariant forall j :: 0 <= j < i ==>
                  r[j] == if includeTransformations then M4.Transform(m, vertices[j]) else vertices[j]
    {
      var vertex := vertices[i];
      if includeTransformations {
        vertex := M4.MulVector(m, vertex);
      }
      r := r + [vertex];
    }
  }

  /** The texture loop of transformModel: a null list adds nothing. */
  method CopyTextures(textures: Option<seq<V2.Vector2f>>) returns (r: seq<V2.Vector2f>)
    ensures r == ModelsOld.OrEmpty(textures)
  {
    r := [];
    if textures.Some? {
      for i := 0 to |textures.value|
        invariant r == textures.value[..i]
      {
        r := r + [textures.value[i]];
      }
    }
  }

  /** The normal loop of transformModel: each normal through the
      transformation's transformNormal, or copied as it is; the first
      normal through a singular normal matrix stops it with an error. */
  method TransformNormals(t: Transformations.Transformation, normals: seq<V3.Vector3f>, includeTransformations: bool)
    returns (r: Result<seq<V3.Vector3f>, string>)
    ensures r.Err? <==> includeTransformations && |normals| > 0 && M3.NormalMatrix(t.matrix).Err?
    ensures r.Ok? ==> r.value == if includeTransformations && |normals| > 0
                                 then ModelsOld.NormalsThrough(M3.NormalMatrix(t.matrix).value, normals)
                                 else normals
  {
    var result: seq<V3.Vector3f> := [];
    for i := 0 to |normals|
      invariant |result| == i
      invariant includeTransformations && i > 0 ==> M3.NormalMatrix(t.matrix).Ok?
      invariant forall j :: 0 <= j < i ==>
                  result[j] == if includeTransformations
                               then M3.Transform(M3.NormalMatrix(t.matrix).value, normals[j])
                               else normals[j]
    {
      var normal := normals[i];
      if includeTransformations {
        var transformed := t.TransformNormal(normal);
        if transformed.Err? {
          return Err(transformed.error);
        }
        normal := transformed.value;
      }
      result := result + [normal];
    }
    r := Ok(result);
  }

  /** new Camera(), seen only through its cached-matrix invariants; the
      camera's own constructor states its default fields. */
  method NewCamera() returns (c: GraphicsCamera.Camera)
    ensures fresh(c) && c.ViewValid() && c.ProjectionValid()
  {
    c := new GraphicsCamera.Camera();
  }

  class GraphicPipeline {
    var modelTransformation: Transformations.Transformation
    var camera: GraphicsCamera.Camera
    var viewportWidth: int
    var viewportHeight: int
    var mvpMatrix: Mat4

    /** The cached MVP is projection · (view · model) of the current
        camera and model transformation. */
    predicate MvpValid()
      reads this, camera, modelTransformation
    {
      mvpMatrix == M4.Product(camera.projectionMatrix, M4.Product(camera.viewMatrix, modelTransformation.matrix))
    }

    /** new GraphicPipeline(width, height): an identity model
        transformation and a default camera. */
    constructor(viewportWidth: int, viewportHeight: int)
      ensures fresh(modelTransformation) && fresh(camera)
      ensures modelTransformation.matrix == M4.Identity()
      ensures camera.ViewValid() && camera.ProjectionValid()
      ensures this.viewportWidth == viewportWidth && this.viewportHeight == viewportHeight
      ensures MvpValid()
    {
      var defaultCamera := NewCamera();
      modelTransformation := new Transformations.Transformation();
      camera := defaultCamera;
      this.viewportWidth := viewportWidth;
      this.viewportHeight := viewportHeight;
      mvpMatrix := M4.Identity();
      new;
      UpdateMvpMatrix();
    }

    /** new GraphicPipeline(camera, width, height): the given camera is
        shared, not copied. */
    constructor WithCamera(camera: GraphicsCamera.Camera, viewportWidth: int, viewportHeight: int)
      ensures fresh(modelTransformation) && modelTransformation.matrix == M4.Identity()
      ensures this.camera == camera
      ensures this.viewportWidth == viewportWidth && this.viewportHeight == viewportHeight
      ensures MvpValid()
    {
      modelTransformation := new Transformations.Transformation();
      this.camera := camera;
      this.viewportWidth := viewportWidth;
      this.viewportHeight := viewportHeight;
      mvpMatrix := M4.Identity();
      new;
      UpdateMvpMatrix();
    }

    /** updateMVPMatrix: MVP = P·(V·M). */
    method UpdateMvpMatrix()
      modifies this
      ensures MvpValid()
      ensures modelTransformation == old(modelTransformation) && camera == old(camera)
      ensures viewportWidth == old(viewportWidth) && viewportHeight == old(viewportHeight)
    {
      var modelMatrix := modelTransformation.GetMatrix();
      var viewMatrix := camera.viewMatrix;
      var projectionMatrix := camera.projectionMatrix;
      var viewModel := M4.Mul(viewMatrix, modelMatrix);
      mvpMatrix := M4.Mul(projectionMatrix, viewModel);
    }

    /** transformVertex(vertex, outputSpace): the stages with the model
        transformation's own matrix. */
    method TransformVertex(vertex: V3.Vector3f, outputSpace: TransformSpace) returns (r: V3.Vector3f)
      ensures r == StageVertex(vertex, modelTransformation.matrix, camera.viewMatrix, camera.projectionMatrix,
                               viewportWidth, viewportHeight, outputSpace)
    {
      var modelMatrix := modelTransformation.GetMatrix();
      r := TransformVertexWith(vertex, modelMatrix, outputSpace);
    }

    /** transformVertex(vertex, customModelMatrix, outputSpace). */
    method TransformVertexWith(vertex: V3.Vector3f, customModelMatrix: Mat4, outputSpace: TransformSpace) returns (r: V3.Vector3f)
      ensures r == StageVertex(vertex, customModelMatrix, camera.viewMatrix, camera.projectionMatrix,
                               viewportWidth, viewportHeight, outputSpace)
    {
      r := vertex;
      if outputSpace.Ordinal() > LOCAL_SPACE.Ordinal() {
        r := M4.MulVector(customModelMatrix, r);
      }
      if outputSpace.Ordinal() > WORLD_SPACE.Ordinal() {
        r := M4.MulVector(camera.viewMatrix, r);
      }
      if outputSpace.Ordinal() > VIEW_SPACE.Ordinal() {
        r := M4.MulVector(camera.projectionMatrix, r);
      }
      if outputSpace.Ordinal() > NDC_SPACE.Ordinal() {
        r := NdcToScreen(r, viewportWidth, viewportHeight);
      }
    }

    /** transformNormal: the model transformation's normal matrix applied;
        a singular upper-left block is an error. */
    method TransformNormal(normal: V3.Vector3f) returns (r: Result<V3.Vector3f, string>)
      ensures r.Err? <==> M3.NormalMatrix(modelTransformation.matrix).Err?
      ensures r.Ok? ==> r.value == M3.Transform(M3.NormalMatrix(modelTransformation.matrix).value, normal)
    {
      r := modelTransformation.TransformNormal(normal);
    }

    /** screenToNDC with the current viewport. */
    method ScreenToNDC(screen: V3.Vector3f) returns (r: V3.Vector3f)
      ensures viewportWidth > 0 && viewportHeight > 0 ==> NdcToScreen(r, viewportWidth, viewportHeight) == screen
      ensures r.z == screen.z
    {
      r := ScreenToNdc(screen, viewportWidth, viewportHeight);
      if viewportWidth > 0 && viewportHeight > 0 {
        ScreenNdcRoundTrip(screen, viewportWidth, viewportHeight);
      }
    }

    /** transformModel: a new mesh whose vertices are taken to world space
        (or copied), whose texture vertices are copied when present, whose
        normals are kept only when asked for and present (through the
        normal matrix or copied), and which shares the polygon list. A
        normal through a singular normal matrix is an error. */
    method TransformModel(model: MeshData, transformNormals: bool, includeTransformations: bool)
      returns (r: Result<MeshData, string>)
      ensures r.Err? <==> includeTransformations && transformNormals && model.normals.Some?
                          && |model.normals.value| > 0 && M3.NormalMatrix(modelTransformation.matrix).Err?
      ensures r.Ok? ==> r.value.vertices
                        == if includeTransformations then Models.TransformAll(modelTransformation.matrix, model.vertices)
                           else model.vertices
      ensures r.Ok? ==> r.value.textureVertices == Some(ModelsOld.OrEmpty(model.textureVertices))
      ensures r.Ok? && !(transformNormals && model.normals.Some?) ==> r.value.normals == Some([])
      ensures r.Ok? && transformNormals && model.normals.Some? ==>
                r.value.normals == Some(if includeTransformations && |model.normals.value| > 0
                                        then ModelsOld.NormalsThrough(M3.NormalMatrix(modelTransformation.matrix).value, model.normals.value)
                                        else model.normals.value)
      ensures r.Ok? ==> r.value.polygons == model.polygons
    {
      var vertices := TransformVertices(modelTransformation.matrix, model.vertices, includeTransformations);
      var textures := CopyTextures(model.textureVertices);
      var normals: seq<V3.Vector3f> := [];
      if transformNormals && model.normals.Some? {
        var transformed := TransformNormals(modelTransformation, model.normals.value, includeTransformations);
        if transformed.Err? {
          return Err(transformed.error);
        }
        normals := transformed.value;
      }
      r := Ok(MeshData(vertices, Some(textures), Some(normals), model.polygons));
    }

    /** updateViewport(width, height): stores the size, sets the camera's
        aspect ratio to width / height (float division) and refreshes the
        MVP. */
    method UpdateViewport(width: int, height: int)
      modifies this, camera
      ensures viewportWidth == width && viewportHeight == height
      ensures camera == old(camera) && modelTransformation == old(modelTransformation)
      ensures camera.aspectRatio == Div(width as real, height as real) && camera.ProjectionValid()
      ensures camera.position == old(camera.position) && camera.target == old(camera.target) && camera.up == old(camera.up)
      ensures camera.fov == old(camera.fov) && camera.nearPlane == old(camera.nearPlane) && camera.farPlane == old(camera.farPlane)
      ensures camera.viewMatrix == old(camera.viewMatrix) && camera.cameraType == old(camera.cameraType)
      ensures MvpValid()
    {
      viewportWidth := width;
      viewportHeight := height;
      camera.SetAspectRatio(Div(width as real, height as real));
      UpdateMvpMatrix();
    }

    /** applyModelTransformation / setModelTransformation: the given
        transformation is shared, and the MVP is refreshed. */
    method SetModelTransformation(transformation: Transformations.Transformation)
      modifies this
      ensures modelTransformation == transformation && camera == old(camera)
      ensures viewportWidth == old(viewportWidth) && viewportHeight == old(viewportHeight)
      ensures MvpValid()
    {
      modelTransformation := transformation;
      UpdateMvpMatrix();
    }

    /** setCamera: the given camera is shared, and the MVP is refreshed. */
    method SetCamera(camera: GraphicsCamera.Camera)
      modifies this
      ensures this.camera == camera && modelTransformation == old(modelTransformation)
      ensures viewportWidth == old(viewportWidth) && viewportHeight == old(viewportHeight)
      ensures MvpValid()
    {
      this.camera := camera;
      UpdateMvpMatrix();
    }
  }
}
