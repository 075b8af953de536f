/** The static projection helpers of the renderer (GraphicConveyor):
    matrix builders that forward to the 4×4 matrix module, a row-vector
    matrix–point product with the perspective divide, and the mapping of a
    projected vertex to a pixel position. */
module GraphicConveyor {
  import opened JavaMath
  import opened Linear
  import V3 = Vector3
  import M4 = Matrix4

  /** The 2-D point the renderer draws at (Point2f). */
  datatype Point2f = Point2f(x: real, y: real)

  /** The up direction the two-argument lookAt supplies. */
  const WORLD_UP := V3.Vector3f(0.0, 1.0, 0.0)

  /** rotateScaleTranslate: a model matrix that is the identity. */
  function RotateScaleTranslate(): (m: Mat4)
  {
    M4.Identity()
  }

  /** The model matrix leaves every vertex where it is. */
  lemma RotateScaleTranslateFixesPoints(v: V3.Vector3f)
    ensures M4.Transform(RotateScaleTranslate(), v) == v
    ensures MultiplyMatrix4ByVector3(RotateScaleTranslate(), v) == v
  {
    M4.TransformIdentity(v);
    MultiplyByIdentity(v);
  }

  /** lookAt(eye, target, up): the matrix builder's view matrix. */
  function LookAt(eye: V3.Vector3f, target: V3.Vector3f, up: V3.Vector3f): (m: Mat4)
  {
    M4.LookAt(eye, target, up)
  }

  /** lookAt(eye, target): the three-argument overload with up = (0, 1, 0). */
  function LookAtDefault(eye: V3.Vector3f, target: V3.Vector3f): (m: Mat4)
  {
    LookAt(eye, target, WORLD_UP)
  }

  /** With the default up the side axis of the view is horizontal: its y
      component, entry (0, 1), is zero, so the view never rolls. */
  lemma LookAtDefaultHasLevelSide(eye: V3.Vector3f, target: V3.Vector3f)
    ensures LookAtDefault(eye, target)[0][1] == 0.0
  {
    SideOfLevelUp(M4.Forward(eye, target));
    NormalizeKeepsZeroY(V3.Cross(WORLD_UP, M4.Forward(eye, target)));
    SideEntry(eye, target, WORLD_UP);
  }

  lemma SideOfLevelUp(f: V3.Vector3f)
    ensures V3.Cross(WORLD_UP, f).y == 0.0
  {
  }

  lemma SideEntry(eye: V3.Vector3f, target: V3.Vector3f, up: V3.Vector3f)
    ensures LookAt(eye, target, up)[0][1] == V3.Normalize(V3.Cross(up, M4.Forward(eye, target))).y
  {
    assert LookAt(eye, target, up) == M4.LookAtFromBasis(eye, M4.Side(eye, target, up), M4.TrueUp(eye, target, up), M4.Forward(eye, target));
    BasisEntry(eye, M4.Side(eye, target, up), M4.TrueUp(eye, target, up), M4.Forward(eye, target));
  }

  lemma BasisEntry(eye: V3.Vector3f, s: V3.Vector3f, u: V3.Vector3f, f: V3.Vector3f)
    ensures M4.LookAtFromBasis(eye, s, u, f)[0][1] == s.y
  {
  }

  /** Normalizing keeps a zero y component zero. */
  lemma NormalizeKeepsZeroY(c: V3.Vector3f)
    requires c.y == 0.0
    ensures V3.Normalize(c).y == 0.0
  {
    V3.NormalizeProperties(c);
    if V3.Length(c) >= V3.EPSILON {
      var r := V3.Normalize(c);
      assert V3.Multiply(r, V3.Length(c)).y == r.y * V3.Length(c) == 0.0;
    }
  }

  /** perspective: forwards its four arguments unchanged. */
  function Perspective(fov: real, aspectRatio: real, nearPlane: real, farPlane: real): (m: Mat4)
  {
    M4.Perspective(fov, aspectRatio, nearPlane, farPlane)
  }

  /** The perspective matrix the renderer gets keeps the builder's quirks:
      its (3, 3) entry is 1 and its (2, 3) entry is 1. */
  lemma PerspectiveForwards(fov: real, aspectRatio: real, nearPlane: real, farPlane: real)
    ensures Perspective(fov, aspectRatio, nearPlane, farPlane) == M4.Perspective(fov, aspectRatio, nearPlane, farPlane)
    ensures Perspective(fov, aspectRatio, nearPlane, farPlane)[3][3] == 1.0
    ensures Perspective(fov, aspectRatio, nearPlane, farPlane)[2][3] == 1.0
  {
  }

  /** The four homogeneous coordinates multiplyMatrix4ByVector3 computes,
      treating the vertex as the row vector (x, y, z, 1). */
  function RowTimesMatrix(m: Mat4, v: V3.Vector3f): (h: seq<real>)
    ensures |h| == 4
  {
    [v.x * m[0][0] + v.y * m[1][0] + v.z * m[2][0] + m[3][0],
     v.x * m[0][1] + v.y * m[1][1] + v.z * m[2][1] + m[3][1],
     v.x * m[0][2] + v.y * m[1][2] + v.z * m[2][2] + m[3][2],
     v.x * m[0][3] + v.y * m[1][3] + v.z * m[2][3] + m[3][3]]
  }

  /** multiplyMatrix4ByVector3: x, y and z divided by w, with no guard on w. */
  function MultiplyMatrix4ByVector3(m: Mat4, v: V3.Vector3f): (r: V3.Vector3f)
  {
    V3.Vector3f(Div(RowTimesMatrix(m, v)[0], RowTimesMatrix(m, v)[3]),
                Div(RowTimesMatrix(m, v)[1], RowTimesMatrix(m, v)[3]),
                Div(RowTimesMatrix(m, v)[2], RowTimesMatrix(m, v)[3]))
  }

  /** The result times w is the homogeneous point when w is not zero; a
      zero w is not guarded against and gives the float division-by-zero
      values. */
  lemma DividesByW(m: Mat4, v: V3.Vector3f)
    ensures RowTimesMatrix(m, v)[3] != 0.0 ==>
              MultiplyMatrix4ByVector3(m, v).x * RowTimesMatrix(m, v)[3] == RowTimesMatrix(m, v)[0]
              && MultiplyMatrix4ByVector3(m, v).y * RowTimesMatrix(m, v)[3] == RowTimesMatrix(m, v)[1]
              && MultiplyMatrix4ByVector3(m, v).z * RowTimesMatrix(m, v)[3] == RowTimesMatrix(m, v)[2]
    ensures RowTimesMatrix(m, v)[3] == 0.0 ==>
              MultiplyMatrix4ByVector3(m, v)
              == V3.Vector3f(DivByZero(RowTimesMatrix(m, v)[0]), DivByZero(RowTimesMatrix(m, v)[1]), DivByZero(RowTimesMatrix(m, v)[2]))
  {
  }

  /** The row-vector product is the column-vector product with the transposed
      matrix: multiplyMatrix4ByVector3 reads m the other way round from mul. */
  lemma RowTimesMatrixIsTransposed(m: Mat4, v: V3.Vector3f)
    ensures RowTimesMatrix(m, v) == MatVec4(M4.Transpose(m), [v.x, v.y, v.z, 1.0])
  {
    TransposedEntry(m, v, 0);
    TransposedEntry(m, v, 1);
    TransposedEntry(m, v, 2);
    TransposedEntry(m, v, 3);
    Equal4(RowTimesMatrix(m, v), MatVec4(M4.Transpose(m), [v.x, v.y, v.z, 1.0]));
  }

  lemma Equal4(a: seq<real>, b: seq<real>)
    requires |a| == 4 && |b| == 4
    requires a[0] == b[0] && a[1] == b[1] && a[2] == b[2] && a[3] == b[3]
    ensures a == b
  {
    assert forall i | 0 <= i < 4 :: a[i] == b[i];
  }

  lemma TransposedEntry(m: Mat4, v: V3.Vector3f, i: nat)
    requires i < 4
    ensures MatVec4(M4.Transpose(m), [v.x, v.y, v.z, 1.0])[i]
         == v.x * m[0][i] + v.y * m[1][i] + v.z * m[2][i] + m[3][i]
  {
  }

  /** A matrix whose column 3 is (0, 0, 0, 1) gives w = 1, so the divide
      changes nothing and the result is the transposed matrix's transform. */
  lemma AffineColumnNeedsNoDivide(m: Mat4, v: V3.Vector3f)
    requires m[0][3] == 0.0 && m[1][3] == 0.0 && m[2][3] == 0.0 && m[3][3] == 1.0
    ensures RowTimesMatrix(m, v)[3] == 1.0
    ensures MultiplyMatrix4ByVector3(m, v)
         == V3.Vector3f(RowTimesMatrix(m, v)[0], RowTimesMatrix(m, v)[1], RowTimesMatrix(m, v)[2])
  {
  }

  /** The identity leaves a vertex unchanged. */
  lemma MultiplyByIdentity(v: V3.Vector3f)
    ensures MultiplyMatrix4ByVector3(M4.Identity(), v) == v
  {
    M4.IdentityLiteral();
    AffineColumnNeedsNoDivide(M4.Identity(), v);
  }

  /** vertexToPoint: x scaled by the full width and shifted by half of it;
      y flipped, scaled by the full height and shifted by half of it. */
  function VertexToPoint(v: V3.Vector3f, width: int, height: int): (p: Point2f)
  {
    Point2f(v.x * width as real + width as real / 2.0, -v.y * height as real + height as real / 2.0)
  }

  /** The origin lands on the centre of the viewport, and since the scale is
      the full size, the viewport spans x and y in [-1/2, 1/2]: (-1/2, 1/2)
      lands on the top-left corner and (1/2, -1/2) on the bottom-right. */
  lemma VertexToPointCorners(z: real, width: int, height: int)
    ensures VertexToPoint(V3.Vector3f(0.0, 0.0, z), width, height) == Point2f(width as real / 2.0, height as real / 2.0)
    ensures VertexToPoint(V3.Vector3f(-0.5, 0.5, z), width, height) == Point2f(0.0, 0.0)
    ensures VertexToPoint(V3.Vector3f(0.5, -0.5, z), width, height) == Point2f(width as real, height as real)
  {
  }

  /** On a viewport of positive size, screen x grows with x and screen y
      shrinks as y grows; z is ignored. */
  lemma VertexToPointMonotone(a: V3.Vector3f, b: V3.Vector3f, width: int, height: int)
    requires width > 0 && height > 0
    ensures a.x < b.x ==> VertexToPoint(a, width, height).x < VertexToPoint(b, width, height).x
    ensures a.y < b.y ==> VertexToPoint(a, width, height).y > VertexToPoint(b, width, height).y
    ensures a.x == b.x && a.y == b.y ==> VertexToPoint(a, width, height) == VertexToPoint(b, width, height)
  {
    if a.x < b.x {
      MulLess(a.x, b.x, width as real);
    }
    if a.y < b.y {
      MulLess(a.y, b.y, height as real);
    }
  }

  lemma MulLess(a: real, b: real, k: real)
    requires a < b && k > 0.0
    ensures a * k < b * k
  {
  }
}
