# A verified model of the OBJ mesh viewer core

This project models, in Dafny, the core of a Java viewer for Wavefront OBJ
polygon meshes. A mesh is four parallel lists: vertex positions, texture
coordinates, normals and polygons. Each polygon holds three lists of integer
indices into the first three lists. Around the mesh sit these pieces:

- **OBJ decoder** (`ObjReader`). It dispatches each line on its first token and resolves
  face indices against the counts read so far. Positive indices are 1-based
  and negative ones count back from the last element. A structural
  validation runs once the whole file is read.
- **Validator and encoder** (`ModelValidator`, `ObjWriter`). The validator is an ordered
  checklist that stops at the first violation. The encoder writes the mesh
  back as text, with 1-based indices and trailing zeros trimmed from each
  number. Lemmas show that the reader reads back a written vertex line and
  each of the four written face-reference forms.
- **Mesh editing.**
  - `PolygonRemover` deletes polygons by index. It can then compact the
    index spaces: only elements still in use or already unused beforehand
    are kept, and every remaining polygon is remapped.
  - `Triangulation` fan-triangulates polygons.
  - `Normalization` accumulates vertex normals.
  - `GuiController.shiftIndices` offsets the face indices in OBJ text.
- **Model state and transforms.**
  - `Model` and `ModelOld` hold the lists together with a transformation.
    `Model` also keeps a saved copy of the original vertices and the
    translation, rotation and scale the user set.
  - The 4×4 and 3×3 matrices, the `Transformation` accumulator, column
    vectors, 2-D and 3-D vectors and `MathUtils`.
  - The `ModelTransformController`, which rebuilds its matrix from
    translation, rotation and scale after every change and notifies its
    listeners.
- **Projection** (`GraphicConveyor`, `GraphicPipeline`). A row-vector product followed by the
  divide by w, the mapping from NDC to pixels, and a staged
  model–view–projection pipeline. The pipeline's NDC stage does nothing and
  its matrix–vector product does not divide, so its NDC and screen outputs
  under a perspective projection are not divided by w.
- **Cameras and input.** The two camera classes and the input manager's
  focus and hotkey state machine.
- **Rasteriser** (`TriangleRasterization`). Bresenham's integer line algorithm, triangle outlines
  and the vertex sort and row loop of the scanline fill.

How the Java is rendered in Dafny:

- Java `float` is modelled as `real`. NaN and the infinities appear only
  where the validator and the number formatter look at them.
- `Math.sqrt`, `sin`, `cos`, `tan`, `atan2`, `PI`, `Float.parseFloat` and
  the `%.6f` formatter are uninterpreted functions. A lemma that needs a fact
  about one of them takes the fact as a hypothesis.
- `Integer.toString`, `String.trim`, `String.split` and 32-bit `int`
  wrap-around are modelled exactly. `Integer.parseInt` is modelled for
  ASCII digits only (see "Left out").
- Immutable values and pure helpers are datatypes and functions. Code that
  changes state step by step is a class with fields, or a method with a
  loop, and each is proved equal to a specification function.
- Thrown exceptions and `null` returns are `Result` and `Option` values.
- `ModelTransformController` declares its model as a `com.cgvsu.model.Model`,
  but it calls `applyTransformation(true)` on it and uses the `Model` that
  call returns. Only `ModelOld` has that method (ModelOld.java:31-55), so the
  controller's model is a `ModelOld` here.
- The classes not shown in the repository's source are represented by the
  values they carry. These are `Polygon`, the transformation and vector
  classes of the `com.cgvsu.math` package that `Model` uses, and the
  camera, model and vector classes of the `ru.kirill` package that
  `GraphicPipeline` uses. Each is replaced by a datatype or by a modelled
  class with the same role.

The code and its comments disagree on the composition order in two places,
and the model follows the code:

- `Transformation.applyScaling` and `applyRotation*` multiply on the right
  and `applyTranslation` on the left. Scale, then rotate, then translate
  therefore builds T·S·(Rx·Ry·Rz): a vertex is rotated first, then scaled,
  then translated. `Transformations.ScaleRotateTranslateOrder` states this.
- `Model` and `ModelTransformController` build their matrix through
  `com.cgvsu.math.Transformation`, which is not part of this model. With that
  class modelled like the `ru.kirill` `Transformation` (translation multiplies
  on the left, scaling and rotation on the right), their rebuild is
  T·S·Rx·Ry·Rz, although their comments describe scale → rotate → translate.
  `Models.RebuiltOrder` states the order under that assumption.

Several quirks of the source are kept as they are:

- The reader does not strip a trailing `#` comment from a data line.
- A repeated index makes the polygon remover delete two polygons.
- `vertexToPoint` scales by the full width and height.
- `perspective` passes degrees to `tan`.
- `lookAt` puts its translation in row 3.
- `Model.apply*` transforms vertices that are already transformed.
- `Model.setVertices` saves the originals only once.
- The two-argument `InputManager` constructor binds its hotkeys before it
  stores the model controller.

## Model

| member | source | states |
|---|---|---|
| MathUtils.ToRadians | src/ru/kirill/task4_4_1/math/MathUtils.java:16-18 | degrees·PI/180: zero maps to zero and the result times 180 is degrees·PI |
| MathUtils.ToDegrees | src/ru/kirill/task4_4_1/math/MathUtils.java:20-22 | radians·180/PI: when PI is non-zero the result times PI is radians·180 |
| MathUtils.DegreesRadiansRoundTrip | src/ru/kirill/task4_4_1/math/MathUtils.java:16-22 | toDegrees and toRadians are inverse to each other, both ways round |
| MathUtils.Clamp | src/ru/kirill/task4_4_1/math/MathUtils.java:24-26 | max(min, min(max, value)): within [min, max] when min <= max, value itself inside the range, min below it, max above it |
| MathUtils.Lerp | src/ru/kirill/task4_4_1/math/MathUtils.java:28-30 | a + (b - a)·t gives a at t = 0, b at t = 1, and a whenever a = b |
| MathUtils.FloatEqualsReflexiveSymmetric | src/ru/kirill/task4_4_1/math/MathUtils.java:32-34 | floatEquals (|a - b| < 1e-7) is reflexive and symmetric |
| MathUtils.FloatEqualsNotTransitive | src/ru/kirill/task4_4_1/math/MathUtils.java:32-34 | floatEquals is not transitive: 0 ≈ 6e-8 ≈ 1.2e-7 but 0 is not ≈ 1.2e-7 |
| MathUtils.LerpVector | src/ru/kirill/task4_4_1/math/MathUtils.java:37-47 | throws "Vectors must have same length" exactly when the lengths differ; otherwise entry i is lerp(a[i], b[i], t) |
| Vector2.Add | src/main/java/com/cgvsu/math/Vector2f.java:16-22 | subtracting b from a + b gives back a |
| Vector2.Multiply | src/main/java/com/cgvsu/math/Vector2f.java:24-26 | scaling by 1 is the identity and scaling by 0 gives the zero vector |
| Vector2.Divide | src/main/java/com/cgvsu/math/Vector2f.java:28-33 | ArithmeticException "Division by zero" exactly when |s| < 1e-7; otherwise the quotient times s is the vector |
| Vector2.LengthSquared | src/main/java/com/cgvsu/math/Vector2f.java:39-41 | the squared length under the square root is never negative |
| Vector2.Normalize | src/main/java/com/cgvsu/math/Vector2f.java:43-49 | a vector shorter than 1e-7 gives (0, 0); otherwise the result times the length is the vector |
| Vector2.DistanceTo | src/main/java/com/cgvsu/math/Vector2f.java:51-55 | the distance is the length of the difference |
| Vector2.DotSymmetric | src/main/java/com/cgvsu/math/Vector2f.java:35-37 | the dot product is symmetric |
| Vector2.ApproxEqualsReflexive | src/main/java/com/cgvsu/math/Vector2f.java:74-78 | equals (component-wise within 1e-7) is reflexive |
| Vector2.ApproxEqualsSymmetric | src/main/java/com/cgvsu/math/Vector2f.java:74-78 | equals is symmetric |
| Vector3.Add | src/ru/kirill/task4_4_1/utils/Vector3f.java:23-29 | subtracting b from a + b gives back a |
| Vector3.Multiply | src/ru/kirill/task4_4_1/utils/Vector3f.java:31-33 | scaling by 1 is the identity and scaling by 0 gives the zero vector |
| Vector3.Divide | src/ru/kirill/task4_4_1/utils/Vector3f.java:35-40 | ArithmeticException "Division by zero" exactly when |s| < 1e-7 |
| Vector3.DivideInverse | src/ru/kirill/task4_4_1/utils/Vector3f.java:35-40 | a successful quotient times s is the vector |
| Vector3.CrossOrthogonal | src/ru/kirill/task4_4_1/utils/Vector3f.java:46-52 | the cross product is orthogonal to both factors |
| Vector3.LengthSquared | src/ru/kirill/task4_4_1/utils/Vector3f.java:54-56 | the squared length under the square root is never negative |
| Vector3.NormalizeProperties | src/ru/kirill/task4_4_1/utils/Vector3f.java:58-64 | a vector shorter than 1e-7 gives (0, 0, 0); otherwise the result times the length is the vector |
| Vector3.DistanceTo | src/ru/kirill/task4_4_1/utils/Vector3f.java:66-71 | the distance is the length of the difference |
| Vector3.DotSymmetric | src/ru/kirill/task4_4_1/utils/Vector3f.java:42-44 | the dot product is symmetric |
| Vector3.CrossAntiCommutative | src/ru/kirill/task4_4_1/utils/Vector3f.java:46-52 | a × b = -(b × a) |
| Vector3.DistanceToSelf | src/ru/kirill/task4_4_1/utils/Vector3f.java:66-71 | a vector is at distance 0 from itself, given sqrt(0) = 0 |
| Vector3.ApproxEqualsReflexive | src/ru/kirill/task4_4_1/utils/Vector3f.java:92-97 | equals (component-wise within 1e-7) is reflexive |
| Vector3.ApproxEqualsSymmetric | src/ru/kirill/task4_4_1/utils/Vector3f.java:92-97 | equals is symmetric |
| Vector3.ApproxEqualsNotTransitive | src/ru/kirill/task4_4_1/utils/Vector3f.java:92-97 | equals is not transitive: three points 0.75e-7 apart in a row |
| ColumnVectors.OfSize | src/ru/kirill/task4_4_1/math/ColumnVector.java:16-19 | new ColumnVector(size): that many components, all zero |
| ColumnVectors.Of | src/ru/kirill/task4_4_1/math/ColumnVector.java:21-24 | new ColumnVector(values...): a copy holding exactly the given values |
| ColumnVectors.ToVector3f | src/ru/kirill/task4_4_1/math/ColumnVector.java:86-91 | IllegalStateException exactly when fewer than 3 components; otherwise the first three |
| ColumnVectors.ToVector2f | src/ru/kirill/task4_4_1/math/ColumnVector.java:94-99 | IllegalStateException exactly when fewer than 2 components; otherwise the first two |
| ColumnVectors.Vector3RoundTrip | src/ru/kirill/task4_4_1/math/ColumnVector.java:26-39 | a point becomes (x, y, z, 1) and a normal (x, y, z, 0); toVector3f gives the vector back from both |
| ColumnVectors.Vector2RoundTrip | src/ru/kirill/task4_4_1/math/ColumnVector.java:31-34 | a 2-D point becomes (x, y, 1) and toVector2f gives it back |
| ColumnVectors.PerspectiveDivideProperties | src/ru/kirill/task4_4_1/math/ColumnVector.java:56-62 | after the divide w is 0 or 1, the result is the same homogeneous point, and dividing again changes nothing |
| ColumnVectors.Multiply4Spec | src/ru/kirill/task4_4_1/math/ColumnVector.java:42-65 | multiply(Matrix4f) succeeds exactly on size-4 vectors and returns a size-4 vector |
| ColumnVectors.Multiply4 | src/ru/kirill/task4_4_1/math/ColumnVector.java:42-65 | the row-by-row accumulation loop and the in-place divide compute M·v followed by the perspective divide, or the size error |
| ColumnVectors.Multiply3Spec | src/ru/kirill/task4_4_1/math/ColumnVector.java:68-83 | multiply(Matrix3f) succeeds exactly on size-3 vectors and returns a size-3 vector |
| ColumnVectors.Multiply3 | src/ru/kirill/task4_4_1/math/ColumnVector.java:68-83 | the accumulation loop computes M·v, or the size error |
| ColumnVectors.Dot | src/ru/kirill/task4_4_1/math/ColumnVector.java:102-112 | "Vectors must have same size" exactly when the sizes differ; otherwise the sum of the component products |
| ColumnVectors.Sum | src/ru/kirill/task4_4_1/math/ColumnVector.java:115-125 | component i of the sum is a[i] + b[i] |
| ColumnVectors.Difference | src/ru/kirill/task4_4_1/math/ColumnVector.java:128-138 | component i of the difference is a[i] - b[i] |
| ColumnVectors.AddSubtractInverse | src/ru/kirill/task4_4_1/math/ColumnVector.java:115-138 | subtracting b from a + b gives back a |
| ColumnVectors.Add | src/ru/kirill/task4_4_1/math/ColumnVector.java:115-125 | the size error exactly when the sizes differ; otherwise the component-wise sum |
| ColumnVectors.Subtract | src/ru/kirill/task4_4_1/math/ColumnVector.java:128-138 | the size error exactly when the sizes differ; otherwise the component-wise difference |
| ColumnVectors.Scale | src/ru/kirill/task4_4_1/math/ColumnVector.java:141-147 | the same size, component i multiplied by the scalar |
| Matrix4.Set | src/main/java/com/cgvsu/math/Matrix4f.java:240-242 | set(row, col, value) changes that one entry and no other |
| Matrix4.SetIdentity | src/main/java/com/cgvsu/math/Matrix4f.java:39-46 | the double loop leaves the array holding the identity |
| Matrix4.NewIdentity | src/main/java/com/cgvsu/math/Matrix4f.java:12-15 | new Matrix4f() / identity(): ones exactly on the diagonal, zeros elsewhere |
| Matrix4.FromRows | src/main/java/com/cgvsu/math/Matrix4f.java:17-26 | "Matrix must be 4x4" when there are not 4 rows or row 0 is not 4 long; otherwise entry (i, j) is copied from row i |
| Matrix4.FromRowsOfMatrix | src/main/java/com/cgvsu/math/Matrix4f.java:17-33 | copying a 4×4 matrix gives the same matrix |
| Matrix4.Mul | src/main/java/com/cgvsu/math/Matrix4f.java:48-61 | the triple loop of sums computes the matrix product |
| Matrix4.IdentityNeutral | src/main/java/com/cgvsu/math/Matrix4f.java:35-61 | the identity is neutral on both sides of mul |
| Matrix4.ProductAssociative | src/main/java/com/cgvsu/math/Matrix4f.java:48-61 | mul is associative, so any bracketing of a chain gives the same matrix |
| Matrix4.MulColumn | src/main/java/com/cgvsu/math/Matrix4f.java:63-79 | "Vector must have 4 components" exactly when the size is not 4; otherwise M·v |
| Matrix4.MulVector | src/main/java/com/cgvsu/math/Matrix4f.java:81-85 | mul(Vector3f) lifts to (x, y, z, 1), multiplies, and keeps x, y, z without dividing by w |
| Matrix4.Transpose | src/main/java/com/cgvsu/math/Matrix4f.java:88-96 | entry (i, j) of the transpose is entry (j, i) |
| Matrix4.TransposeInvolution | src/main/java/com/cgvsu/math/Matrix4f.java:88-96 | transposing twice gives the matrix back |
| Matrix4.TransposeMethod | src/main/java/com/cgvsu/math/Matrix4f.java:88-96 | the copy loop computes the transpose |
| Matrix4.Plus | src/main/java/com/cgvsu/math/Matrix4f.java:99-108 | entry (i, j) of the sum is a[i][j] + b[i][j] |
| Matrix4.Minus | src/main/java/com/cgvsu/math/Matrix4f.java:110-119 | entry (i, j) of the difference is a[i][j] - b[i][j] |
| Matrix4.Scaled | src/main/java/com/cgvsu/math/Matrix4f.java:121-130 | every entry multiplied by the scalar |
| Matrix4.AddSubtractInverse | src/main/java/com/cgvsu/math/Matrix4f.java:99-119 | subtracting b from a + b gives back a |
| Matrix4.Add | src/main/java/com/cgvsu/math/Matrix4f.java:99-108 | the loop computes the entry-wise sum |
| Matrix4.Subtract | src/main/java/com/cgvsu/math/Matrix4f.java:110-119 | the loop computes the entry-wise difference |
| Matrix4.Multiply | src/main/java/com/cgvsu/math/Matrix4f.java:121-130 | the loop scales every entry |
| Matrix4.TranslationMovesPoints | src/main/java/com/cgvsu/math/Matrix4f.java:133-139 | translation() in column 3 moves a point (w = 1) by (tx, ty, tz) and leaves a direction (w = 0) alone |
| Matrix4.ScalingScalesPoints | src/main/java/com/cgvsu/math/Matrix4f.java:141-147 | scaling() multiplies each coordinate of a point by its factor |
| Matrix4.RotationXFixesX | src/main/java/com/cgvsu/math/Matrix4f.java:149-160 | the X rotation keeps x and rotates (y, z) by the given cos and sin |
| Matrix4.RotationYFixesY | src/main/java/com/cgvsu/math/Matrix4f.java:162-173 | the Y rotation keeps y and rotates (z, x) by the given cos and sin |
| Matrix4.RotationZFixesZ | src/main/java/com/cgvsu/math/Matrix4f.java:175-186 | the Z rotation keeps z and rotates (x, y) by the given cos and sin |
| Matrix4.BuildersAreAffine | src/main/java/com/cgvsu/math/Matrix4f.java:133-186 | identity, translation, scaling and the three rotations all keep row 3 equal to (0, 0, 0, 1) |
| Matrix4.AffineProduct | src/main/java/com/cgvsu/math/Matrix4f.java:48-61 | the product of two such affine matrices is affine |
| Matrix4.TransformProduct | src/main/java/com/cgvsu/math/Matrix4f.java:48-85 | transforming by a·b is transforming by b, then by a, when b is affine |
| Matrix4.PerspectiveRowThree | src/main/java/com/cgvsu/math/Matrix4f.java:189-198 | perspective() takes tan of fov·0.5 in degrees unconverted, and the projected w is 1 + z·2nf/(n - f), not z |
| Matrix4.LookAtTranslationInRowThree | src/main/java/com/cgvsu/math/Matrix4f.java:213-233 | lookAt() puts -(s·eye, u·eye, f·eye) in row 3, leaves column 3 as (0, 0, 0, 1), and so does not move the eye to the origin |
| Matrix4.TransformByBasis | src/main/java/com/cgvsu/math/Matrix4f.java:213-233 | a matrix whose rows 0..2 are a basis maps v to its dot products with the basis |
| Matrix4.TransformIdentity | src/main/java/com/cgvsu/math/Matrix4f.java:35-85 | the identity transform leaves a vector unchanged |
| Matrix3.SetIdentity | src/main/java/com/cgvsu/math/Matrix3f.java:39-45 | the double loop leaves the array holding the 3×3 identity |
| Matrix3.NewIdentity | src/main/java/com/cgvsu/math/Matrix3f.java:12-15 | new Matrix3f() / identity(): ones exactly on the diagonal, zeros elsewhere |
| Matrix3.FromRows | src/main/java/com/cgvsu/math/Matrix3f.java:17-25 | "Matrix must be 3x3" when there are not 3 rows or row 0 is not 3 long; otherwise entry (i, j) is copied from row i |
| Matrix3.Product | src/main/java/com/cgvsu/math/Matrix3f.java:48-60 | entry (i, j) of the product is the sum over k of a[i][k]·b[k][j] |
| Matrix3.Mul | src/main/java/com/cgvsu/math/Matrix3f.java:48-60 | the triple loop of sums computes the matrix product |
| Matrix3.IdentityNeutral | src/main/java/com/cgvsu/math/Matrix3f.java:35-60 | the identity is neutral on both sides of mul |
| Matrix3.MulColumn | src/main/java/com/cgvsu/math/Matrix3f.java:63-78 | "Vector must have 3 components" exactly when the size is not 3; otherwise M·v |
| Matrix3.MulVector | src/main/java/com/cgvsu/math/Matrix3f.java:81-85 | mul(Vector3f) is M·v on the three coordinates |
| Matrix3.Transpose | src/main/java/com/cgvsu/math/Matrix3f.java:88-96 | entry (i, j) of the transpose is entry (j, i) |
| Matrix3.TransposeInvolution | src/main/java/com/cgvsu/math/Matrix3f.java:88-96 | transposing twice gives the matrix back |
| Matrix3.TransposeMethod | src/main/java/com/cgvsu/math/Matrix3f.java:88-96 | the copy loop computes the transpose |
| Matrix3.DeterminantOfIdentity | src/main/java/com/cgvsu/math/Matrix3f.java:122-126 | the cofactor expansion gives 1 for the identity |
| Matrix3.Inverse | src/main/java/com/cgvsu/math/Matrix3f.java:99-119 | "Matrix is singular, cannot compute inverse" exactly when abs(det) < 1e-10 |
| Matrix3.AdjugateColumn0 | src/main/java/com/cgvsu/math/Matrix3f.java:108-116 | column 0 of the cofactor matrix inverse() writes is row 1 × row 2 |
| Matrix3.AdjugateColumn1 | src/main/java/com/cgvsu/math/Matrix3f.java:108-116 | column 1 of that matrix is row 2 × row 0 |
| Matrix3.AdjugateColumn2 | src/main/java/com/cgvsu/math/Matrix3f.java:108-116 | column 2 of that matrix is row 0 × row 1 |
| Matrix3.ProductEntryIsDot | src/main/java/com/cgvsu/math/Matrix3f.java:48-60 | a product entry is the dot product of a row of a and a column of b |
| Matrix3.TripleProductCyclic | src/main/java/com/cgvsu/math/Matrix3f.java:122-126 | the triple product u·(v×w) is invariant under cyclic shifts |
| Matrix3.ProductWithAdjugate | src/main/java/com/cgvsu/math/Matrix3f.java:99-126 | m times the cofactor matrix is det(m) times the identity |
| Matrix3.ProductScaled | src/main/java/com/cgvsu/math/Matrix3f.java:105-116 | scaling the right factor by invDet scales the product by invDet |
| Matrix3.InverseIsRightInverse | src/main/java/com/cgvsu/math/Matrix3f.java:99-119 | when inverse() succeeds, m·inverse(m) is the identity |
| Matrix3.UpperLeft | src/main/java/com/cgvsu/math/Matrix3f.java:129-137 | entry (i, j), for i, j < 3, is the 4×4 matrix's entry (i, j) |
| Matrix3.FromMatrix4 | src/main/java/com/cgvsu/math/Matrix3f.java:129-137 | the copy loop extracts the upper-left 3×3 block |
| Matrix3.NormalMatrix | src/main/java/com/cgvsu/math/Matrix3f.java:141-144 | fails exactly when the upper-left block is singular; otherwise it is the transpose of that block's inverse |
| Transformations.Transformation.constructor | src/ru/kirill/task4_4_1/math/Transformation.java:14-16 | a new transformation holds the identity |
| Transformations.Transformation.ApplyTranslation | src/ru/kirill/task4_4_1/math/Transformation.java:20-24 | the translation multiplies on the left: M' = T·M |
| Transformations.Transformation.ApplyScaling | src/ru/kirill/task4_4_1/math/Transformation.java:26-30 | the scaling multiplies on the right: M' = M·S |
| Transformations.Transformation.ApplyRotationX | src/ru/kirill/task4_4_1/math/Transformation.java:32-36 | M' = M·Rx |
| Transformations.Transformation.ApplyRotationY | src/ru/kirill/task4_4_1/math/Transformation.java:38-41 | M' = M·Ry |
| Transformations.Transformation.ApplyRotationZ | src/ru/kirill/task4_4_1/math/Transformation.java:43-46 | M' = M·Rz |
| Transformations.Transformation.ApplyRotation | src/ru/kirill/task4_4_1/math/Transformation.java:49-53 | M' = M·Rx·Ry·Rz |
| Transformations.Transformation.ApplyTransformation | src/ru/kirill/task4_4_1/math/Transformation.java:56-58 | an arbitrary matrix multiplies on the left: M' = X·M |
| Transformations.Transformation.Combine | src/ru/kirill/task4_4_1/math/Transformation.java:82-84 | combining with another transformation puts its matrix on the left |
| Transformations.Transformation.Transform | src/ru/kirill/task4_4_1/math/Transformation.java:61-63 | a vector is transformed by the current matrix |
| Transformations.Transformation.TransformNormal | src/ru/kirill/task4_4_1/math/Transformation.java:66-69 | fails exactly when the normal matrix does (singular upper-left block); otherwise the normal is multiplied by the inverse transpose |
| Transformations.Transformation.GetMatrix | src/ru/kirill/task4_4_1/math/Transformation.java:72-74 | returns a copy equal to the current matrix |
| Transformations.Transformation.Reset | src/ru/kirill/task4_4_1/math/Transformation.java:77-79 | back to the identity |
| Transformations.AfterRotationIsRightProduct | src/ru/kirill/task4_4_1/math/Transformation.java:49-53 | the three right multiplications equal one right multiplication by Rx·Ry·Rz |
| Transformations.ScaleRotateTranslateOrder | src/ru/kirill/task4_4_1/math/Transformation.java:18-53 | scaling, then rotating, then translating from the identity leaves T·S·(Rx·Ry·Rz), so a point is rotated first, then scaled, then translated |
| Transformations.RotateScaleTranslateOrder | src/ru/kirill/task4_4_1/math/Transformation.java:18-53 | rotating before scaling leaves T·R·S instead |
| Transformations.RotationIsAffine | src/ru/kirill/task4_4_1/math/Transformation.java:32-53 | the composed rotation keeps the affine bottom row |
| Transformations.TranslationCommutesWithRightOps | src/ru/kirill/task4_4_1/math/Transformation.java:20-46 | a left translation and a right multiplication can be applied in either order |
| Transformations.ScalingRotationDoNotCommute | src/ru/kirill/task4_4_1/math/Transformation.java:26-46 | the order of scaling and rotation matters: S·Rz differs from Rz·S for a non-uniform scale |
| GraphicConveyor.RotateScaleTranslateFixesPoints | src/main/java/com/cgvsu/render_engine/GraphicConveyor.java:9-11 | the model matrix is the identity and leaves every vertex where it is, under both products |
| GraphicConveyor.LookAtDefaultHasLevelSide | src/main/java/com/cgvsu/render_engine/GraphicConveyor.java:13-19 | with the default up (0, 1, 0) the view's side axis has no y component |
| GraphicConveyor.PerspectiveForwards | src/main/java/com/cgvsu/render_engine/GraphicConveyor.java:21-27 | perspective forwards its arguments unchanged, keeping the 1 at (3, 3) and at (2, 3) |
| GraphicConveyor.DividesByW | src/main/java/com/cgvsu/render_engine/GraphicConveyor.java:29-35 | x, y and z are the homogeneous coordinates divided by w; a zero w is not guarded |
| GraphicConveyor.RowTimesMatrixIsTransposed | src/main/java/com/cgvsu/render_engine/GraphicConveyor.java:30-33 | the vertex is a row vector: the product is the column product with the transposed matrix |
| GraphicConveyor.AffineColumnNeedsNoDivide | src/main/java/com/cgvsu/render_engine/GraphicConveyor.java:29-35 | a matrix whose column 3 is (0, 0, 0, 1) gives w = 1 and no change from the divide |
| GraphicConveyor.MultiplyByIdentity | src/main/java/com/cgvsu/render_engine/GraphicConveyor.java:29-35 | the identity leaves a vertex unchanged |
| GraphicConveyor.VertexToPointCorners | src/main/java/com/cgvsu/render_engine/GraphicConveyor.java:37-39 | the origin maps to the viewport centre, (-1/2, 1/2) to the top-left and (1/2, -1/2) to the bottom-right corner |
| GraphicConveyor.VertexToPointMonotone | src/main/java/com/cgvsu/render_engine/GraphicConveyor.java:37-39 | screen x grows with x, screen y shrinks as y grows, z is ignored |
| GraphicPipelines.NdcToScreenCorners | src/ru/kirill/task4_4_1/graphics/GraphicPipeline.java:111-118 | NDC (-1, 1) lands on pixel (0, 0), (1, -1) on (width, height), the centre on the middle; depth is kept |
| GraphicPipelines.ScreenNdcRoundTrip | src/ru/kirill/task4_4_1/graphics/GraphicPipeline.java:111-127 | on a viewport of positive size, screenToNDC undoes ndcToScreen and the other way round |
| GraphicPipelines.StagesByOrder | src/ru/kirill/task4_4_1/graphics/GraphicPipeline.java:73-103 | each output space gets one more stage than the one before it, in enumeration order; NDC equals clip space, because the NDC stage of the code is empty; the divide by w is not modelled |
| GraphicPipelines.ViewStageIsProduct | src/ru/kirill/task4_4_1/graphics/GraphicPipeline.java:58-89 | with an affine model matrix the view stage is one product by V·M |
| GraphicPipelines.ClipStageIsMvp | src/ru/kirill/task4_4_1/graphics/GraphicPipeline.java:58-89 | with affine model and view matrices the clip stage is one product by the cached P·(V·M) |
| GraphicPipelines.TransformVertices | src/ru/kirill/task4_4_1/graphics/GraphicPipeline.java:133-138 | every vertex goes to world space, or is copied when transformations are off |
| GraphicPipelines.CopyTextures | src/ru/kirill/task4_4_1/graphics/GraphicPipeline.java:140-145 | the texture vertices are copied in order; a null list adds none |
| GraphicPipelines.TransformNormals | src/ru/kirill/task4_4_1/graphics/GraphicPipeline.java:147-154 | every normal goes through the normal matrix, or is copied; fails exactly when a normal meets a singular normal matrix |
| GraphicPipelines.NewCamera | src/ru/kirill/task4_4_1/graphics/GraphicPipeline.java:43 | a fresh default camera whose cached view and projection matrices are consistent |
| GraphicPipelines.GraphicPipeline.constructor | src/ru/kirill/task4_4_1/graphics/GraphicPipeline.java:41-47 | an identity model transformation, a fresh default camera, the given viewport and a consistent MVP |
| GraphicPipelines.GraphicPipeline.WithCamera | src/ru/kirill/task4_4_1/graphics/GraphicPipeline.java:49-55 | the given camera is shared; identity model transformation; consistent MVP |
| GraphicPipelines.GraphicPipeline.UpdateMvpMatrix | src/ru/kirill/task4_4_1/graphics/GraphicPipeline.java:58-65 | the cached MVP becomes P·(V·M); nothing else changes |
| GraphicPipelines.GraphicPipeline.TransformVertex | src/ru/kirill/task4_4_1/graphics/GraphicPipeline.java:68-70 | the staged transform with the current model matrix |
| GraphicPipelines.GraphicPipeline.TransformVertexWith | src/ru/kirill/task4_4_1/graphics/GraphicPipeline.java:73-103 | the stages run exactly for the spaces beyond their start, with the given model matrix |
| GraphicPipelines.GraphicPipeline.TransformNormal | src/ru/kirill/task4_4_1/graphics/GraphicPipeline.java:106-108 | delegates to the model transformation: an error exactly when its normal matrix is singular |
| GraphicPipelines.GraphicPipeline.ScreenToNDC | src/ru/kirill/task4_4_1/graphics/GraphicPipeline.java:121-127 | on a viewport of positive size the result maps back to the screen point; depth is kept |
| GraphicPipelines.GraphicPipeline.TransformModel | src/ru/kirill/task4_4_1/graphics/GraphicPipeline.java:130-160 | vertices to world space or copied; textures copied (null gives empty); normals only when asked for and present; the polygon list shared; an error exactly when a normal meets a singular normal matrix |
| GraphicPipelines.GraphicPipeline.UpdateViewport | src/ru/kirill/task4_4_1/graphics/GraphicPipeline.java:163-168 | stores the size, sets the camera's aspect ratio to width / height, leaves the rest of the camera, and refreshes the MVP |
| GraphicPipelines.GraphicPipeline.SetModelTransformation | src/ru/kirill/task4_4_1/graphics/GraphicPipeline.java:171-174 | the given transformation is shared (applyModelTransformation and setModelTransformation are the same) and the MVP is refreshed |
| GraphicPipelines.GraphicPipeline.SetCamera | src/ru/kirill/task4_4_1/graphics/GraphicPipeline.java:184-187 | the given camera is shared and the MVP is refreshed |
| GraphicsCamera.ProjectionIgnoresTranslation | src/main/java/com/cgvsu/graphics/Camera.java:68-88 | moving position and target by one delta keeps the projection matrix: a perspective one does not read them, an orthographic one reads only their distance |
| GraphicsCamera.MoveKeepsOffset | src/main/java/com/cgvsu/graphics/Camera.java:84-88 | a shared move keeps the offset and the distance between position and target |
| GraphicsCamera.ZoomDistance | src/main/java/com/cgvsu/graphics/Camera.java:136 | the new distance is distance + amount clamped to [0.1, 100] |
| GraphicsCamera.ClampPitch | src/main/java/com/cgvsu/graphics/Camera.java:116-117 | the pitch is clamped to [-maxPitch, maxPitch] with maxPitch = pi/2 - 0.1 |
| GraphicsCamera.ZeroYawKeepsOffset | src/main/java/com/cgvsu/graphics/Camera.java:105-108 | with no yaw the horizontal rotation leaves the offset unchanged |
| GraphicsCamera.Camera.constructor | src/main/java/com/cgvsu/graphics/Camera.java:30-45 | at (0, 0, 5) looking at the origin with up (0, 1, 0), fov 60, aspect 16/9, planes 0.1 and 100, perspective, both matrices up to date |
| GraphicsCamera.Camera.With | src/main/java/com/cgvsu/graphics/Camera.java:47-60 | a perspective camera with the given fields and both matrices up to date |
| GraphicsCamera.Camera.UpdateViewMatrix | src/main/java/com/cgvsu/graphics/Camera.java:63-65 | the view matrix becomes lookAt(position, target, up); nothing else changes |
| GraphicsCamera.Camera.UpdateProjectionMatrix | src/main/java/com/cgvsu/graphics/Camera.java:68-81 | perspective(fov, aspect, near, far), or the orthographic box of half-height distance·tan(fov/2) and half-width that times aspect; nothing else changes |
| GraphicsCamera.Camera.Move | src/main/java/com/cgvsu/graphics/Camera.java:84-88 | position and target shift by delta; the view is refreshed and the projection stays valid without being rebuilt |
| GraphicsCamera.Camera.RotateAroundTarget | src/main/java/com/cgvsu/graphics/Camera.java:91-128 | the target stays; the camera moves to target + the yawed and pitch-clamped offset; the projection is not rebuilt |
| GraphicsCamera.Camera.Zoom | src/main/java/com/cgvsu/graphics/Camera.java:131-142 | the camera moves along the viewing ray to the clamped distance, or not at all when that distance is the current one |
| GraphicsCamera.Camera.SetCameraType | src/main/java/com/cgvsu/graphics/Camera.java:145-148 | stores the type and rebuilds the projection; the view is untouched |
| GraphicsCamera.Camera.SetProjectionParams | src/main/java/com/cgvsu/graphics/Camera.java:151-157 | stores fov, aspect and planes and rebuilds the projection |
| GraphicsCamera.Camera.SetPosition | src/main/java/com/cgvsu/graphics/Camera.java:172-175 | stores the position and refreshes the view |
| GraphicsCamera.Camera.SetTarget | src/main/java/com/cgvsu/graphics/Camera.java:177-180 | stores the target and refreshes the view |
| GraphicsCamera.Camera.SetUp | src/main/java/com/cgvsu/graphics/Camera.java:182-185 | stores the up vector and refreshes the view |
| GraphicsCamera.Camera.SetFov | src/main/java/com/cgvsu/graphics/Camera.java:187-190 | stores the fov and rebuilds the projection |
| GraphicsCamera.Camera.SetAspectRatio | src/main/java/com/cgvsu/graphics/Camera.java:192-195 | stores the aspect ratio and rebuilds the projection |
| GraphicsCamera.Camera.SetNearPlane | src/main/java/com/cgvsu/graphics/Camera.java:197-200 | stores the near plane and rebuilds the projection |
| GraphicsCamera.Camera.SetFarPlane | src/main/java/com/cgvsu/graphics/Camera.java:202-205 | stores the far plane and rebuilds the projection |
| RenderCamera.Clamp | src/main/java/com/cgvsu/render_engine/Camera.java:162-163 | the two-step clamp: below lo gives lo, above hi gives hi, otherwise the value |
| RenderCamera.OrbitOffsetLength | src/main/java/com/cgvsu/render_engine/Camera.java:115-130 | the orbit keeps the camera at the orbit distance: the offset's squared length is distance², given cos² + sin² = 1 |
| RenderCamera.Camera.constructor | src/main/java/com/cgvsu/render_engine/Camera.java:38-58 | FIXED mode, up (0, 1, 0), the given position, target and projection fields, sensitivities 0.3, 10 and 0.2, and both angle pairs derived from position and target (defaults 0°/30° and -90°/0° kept when the points coincide) |
| RenderCamera.Camera.UpdateOrbitParametersFromPosition | src/main/java/com/cgvsu/render_engine/Camera.java:78-95 | the orbit distance is the distance to the target; the angles are re-derived only when it is positive |
| RenderCamera.Camera.UpdateFreeCameraAngles | src/main/java/com/cgvsu/render_engine/Camera.java:98-112 | the free angles are those of the viewing direction, when it has positive length |
| RenderCamera.Camera.SetMode | src/main/java/com/cgvsu/render_engine/Camera.java:60-71 | entering ORBIT re-derives the orbit parameters, entering FREE_FLIGHT the free angles; setting the current mode again changes nothing else |
| RenderCamera.Camera.ProcessMouseMovement | src/main/java/com/cgvsu/render_engine/Camera.java:150-180 | nothing in FIXED; in ORBIT the target stays and the camera moves to the turned angles with pitch clamped to ±89°; in FREE_FLIGHT the position stays and the target turns |
| RenderCamera.Camera.UpdateOrbitCameraPosition | src/main/java/com/cgvsu/render_engine/Camera.java:115-130 | the camera is put at target + the orbit offset |
| RenderCamera.Camera.UpdateFreeCameraTarget | src/main/java/com/cgvsu/render_engine/Camera.java:133-147 | the target is put ten units ahead along the angles' unit direction |
| RenderCamera.Camera.ProcessKeyboard | src/main/java/com/cgvsu/render_engine/Camera.java:183-214 | only in FREE_FLIGHT: a step of movementSpeed·deltaTime along the chosen axis, then the target ten units ahead again |
| RenderCamera.Camera.ProcessMouseScroll | src/main/java/com/cgvsu/render_engine/Camera.java:217-241 | ORBIT shrinks the distance by deltaY·zoomSensitivity within [1, 500] and moves the camera; FREE_FLIGHT changes only the fov, within [1, 120]; FIXED nothing |
| RenderCamera.Camera.SetPosition | src/main/java/com/cgvsu/render_engine/Camera.java:244-251 | stores the position and re-derives the current mode's angles |
| RenderCamera.Camera.SetTarget | src/main/java/com/cgvsu/render_engine/Camera.java:253-260 | stores the target and re-derives the current mode's angles |
| RenderCamera.Camera.RederiveAngles | src/main/java/com/cgvsu/render_engine/Camera.java:246-250 | the mode switch setPosition and setTarget share |
| RenderCamera.Camera.MovePosition | src/main/java/com/cgvsu/render_engine/Camera.java:275-278 | position and target move together in every mode, keeping the viewing offset |
| RenderCamera.Camera.MoveTarget | src/main/java/com/cgvsu/render_engine/Camera.java:280-285 | the target moves; only ORBIT re-derives its parameters |
| RenderCamera.Camera.SetAspectRatio | src/main/java/com/cgvsu/render_engine/Camera.java:262-264 | stores the aspect ratio only |
| RenderCamera.Camera.SetFov | src/main/java/com/cgvsu/render_engine/Camera.java:292-294 | stores the fov only |
| Models.TransformAll | src/main/java/com/cgvsu/model/Model.java:111-115 | every vertex through the matrix, count and order kept |
| Models.RebuiltOrder | src/main/java/com/cgvsu/model/Model.java:61-67 | with `com.cgvsu.math.Transformation` built like `ru.kirill`'s, the matrix rebuilt as scale, then rotate, then translate rotates a point first, then scales it, then translates it |
| Models.Saved | src/main/java/com/cgvsu/model/Model.java:47-53 | the vertices become the originals only when none are saved yet |
| Models.SavedIdempotent | src/main/java/com/cgvsu/model/Model.java:47-53 | saving twice saves once |
| Models.Model.constructor | src/main/java/com/cgvsu/model/Model.java:35-39 | empty lists, the identity transformation, the name "Unnamed Model", no originals, zero translation and rotation, unit scale |
| Models.Model.Named | src/main/java/com/cgvsu/model/Model.java:41-44 | the same with the given name |
| Models.Model.SaveOriginalVertices | src/main/java/com/cgvsu/model/Model.java:47-53 | copies the vertices to the originals when none are saved and there are vertices; nothing else changes |
| Models.Model.UpdateVerticesFromOriginal | src/main/java/com/cgvsu/model/Model.java:122-132 | without originals nothing changes; otherwise the vertices become the originals through the matrix |
| Models.Model.ApplyTransformation | src/main/java/com/cgvsu/model/Model.java:56-71 | without originals nothing changes; otherwise the matrix is rebuilt from the stored fields and the vertices from the originals |
| Models.Model.SetVertices | src/main/java/com/cgvsu/model/Model.java:212-218 | replaces the list; it becomes the originals only when none are saved and it is non-empty |
| Models.Model.SetTextureVertices | src/main/java/com/cgvsu/model/Model.java:224-226 | replaces the texture list only |
| Models.Model.SetNormals | src/main/java/com/cgvsu/model/Model.java:232-234 | replaces the normal list only |
| Models.Model.SetPolygons | src/main/java/com/cgvsu/model/Model.java:240-242 | replaces the polygon list only |
| Models.Model.UpdateVerticesAfterTransformation | src/main/java/com/cgvsu/model/Model.java:104-119 | the current vertices through the matrix, stored through setVertices |
| Models.Model.ApplyTranslation | src/main/java/com/cgvsu/model/Model.java:73-78 | M' = T·M, then the current (already transformed) vertices go through M' |
| Models.Model.ApplyRotation | src/main/java/com/cgvsu/model/Model.java:80-84 | M' = M·Rx·Ry·Rz, then the current vertices through M' |
| Models.Model.ApplyScaling | src/main/java/com/cgvsu/model/Model.java:86-90 | M' = M·S, then the current vertices through M' |
| Models.Model.ApplyAllTransformations | src/main/java/com/cgvsu/model/Model.java:92-101 | the matrix from reset, through the current vertices; the stored fields are not updated |
| Models.Model.SetTranslation | src/main/java/com/cgvsu/model/Model.java:135-140 | stores the translation, then applyTransformation |
| Models.Model.SetRotation | src/main/java/com/cgvsu/model/Model.java:142-147 | stores the rotation, then applyTransformation |
| Models.Model.SetScaling | src/main/java/com/cgvsu/model/Model.java:149-154 | stores the scale, then applyTransformation |
| Models.Model.SetAllTransformations | src/main/java/com/cgvsu/model/Model.java:156-169 | stores all nine values, then applyTransformation |
| Models.Model.ResetTransformations | src/main/java/com/cgvsu/model/Model.java:172-192 | the fields back to zero and one, the vertices back to a copy of the originals when there are any, the identity matrix |
| ModelsOld.NormalsThrough | src/main/java/com/cgvsu/model/ModelOld.java:47-49 | every normal through the normal matrix, count and order kept |
| ModelsOld.CopyPolygonProperties | src/main/java/com/cgvsu/model/ModelOld.java:139-152 | a copied polygon keeps its indices and has no null list; a polygon without null lists copies to itself; copying is idempotent |
| ModelsOld.CopyPolygons | src/main/java/com/cgvsu/model/ModelOld.java:139-152 | one deep copy per polygon, in order |
| ModelsOld.ModelOld.constructor | src/main/java/com/cgvsu/model/ModelOld.java:20-23 | empty lists, the identity transformation and the name "Unnamed Model" |
| ModelsOld.ModelOld.Named | src/main/java/com/cgvsu/model/ModelOld.java:25-28 | the same with the given name |
| ModelsOld.ModelOld.ApplyTransformation | src/main/java/com/cgvsu/model/ModelOld.java:31-55 | the flag guards an empty block, so a new Model named name + " (transformed)" is always built: vertices through the matrix, texture list copied, normals through the normal matrix, the same polygons; a null texture or normal list, or a normal meeting a singular normal matrix, throws |
| ModelsOld.ModelOld.UpdateVerticesAfterTransformation | src/main/java/com/cgvsu/model/ModelOld.java:97-112 | the current vertices through the matrix, stored with the plain setter |
| ModelsOld.ModelOld.ApplyTranslation | src/main/java/com/cgvsu/model/ModelOld.java:60-65 | M' = T·M, then the current vertices through M' |
| ModelsOld.ModelOld.ApplyRotation | src/main/java/com/cgvsu/model/ModelOld.java:67-71 | M' = M·Rx·Ry·Rz, then the current vertices through M' |
| ModelsOld.ModelOld.ApplyScaling | src/main/java/com/cgvsu/model/ModelOld.java:73-77 | M' = M·S, then the current vertices through M' |
| ModelsOld.ModelOld.ApplyAllTransformations | src/main/java/com/cgvsu/model/ModelOld.java:79-88 | the matrix rebuilt from reset as scale, rotate, translate, then the current vertices through it |
| ModelsOld.ModelOld.ResetTransformations | src/main/java/com/cgvsu/model/ModelOld.java:90-94 | the identity, and the vertices stay as they are (they are put through the identity) |
| ModelsOld.ModelOld.Copy | src/main/java/com/cgvsu/model/ModelOld.java:116-155 | a new Model with the same name and equal values, a null list copied as empty, and a deep copy of every polygon |
| ModelsOld.TransformEach | src/main/java/com/cgvsu/model/ModelOld.java:104-108 | the vertex loop computes every vertex through the matrix |
| ModelsOld.NormalEach | src/main/java/com/cgvsu/model/ModelOld.java:47-49 | the normal loop computes every normal through the normal matrix |
| ModelsOld.TransformAllIdentity | src/main/java/com/cgvsu/model/ModelOld.java:90-94 | every vertex through the identity is itself |
| ModelsOld.CopyPolygonsKeepIndices | src/main/java/com/cgvsu/model/ModelOld.java:139-152 | a copy's polygons keep every index list and have no null list |
| ObjReader.Render | src/ru/kirill/task4_4_1/utils/ObjReaderException.java:5-7 | the message starts with "Error parsing OBJ file on line: " and ends with the error's own text |
| ObjReader.ParseIndex | Task4/Simple3DViewer/src/main/java/com/cgvsu/objreader/ObjReader.java:175-197 | "Failed to parse int value." for a non-integer; a positive k gives k - 1, accepted exactly when k <= arrSize, else "Invalid index."; a negative k gives arrSize + k, accepted exactly when that is not negative, else "Incorrect index."; 0 is "Incorrect index."; a result always lies in [0, arrSize) |
| ObjReader.ParseIndexOfText | Task4/Simple3DViewer/src/main/java/com/cgvsu/objreader/ObjReader.java:175-197 | the text of a 1-based index k resolves to k - 1 and the text of -k to arrSize - k, for 1 <= k <= arrSize |
| ObjReader.ParseFloats | Task4/Simple3DViewer/src/main/java/com/cgvsu/objreader/ObjReader.java:68-79 | the first count words parsed in order; a missing word gives the "too few" message exactly when every word present parses, otherwise "Failed to parse float value." |
| ObjReader.ParseVertex | Task4/Simple3DViewer/src/main/java/com/cgvsu/objreader/ObjReader.java:63-80 | more than three words is "Too many vertex arguments." before anything is parsed; succeeds exactly on three parseable words, which become x, y and z; too few parseable words give "Too few vertex arguments." |
| ObjReader.ParseTextureVertex | Task4/Simple3DViewer/src/main/java/com/cgvsu/objreader/ObjReader.java:82-94 | succeeds exactly when the first two words parse (further words are ignored); too few give "Too few texture vertex arguments." |
| ObjReader.ParseNormal | Task4/Simple3DViewer/src/main/java/com/cgvsu/objreader/ObjReader.java:96-109 | succeeds exactly when the first three words parse (further words are ignored); too few give "Too few normal arguments." |
| ObjReader.ParseFaceWord | Task4/Simple3DViewer/src/main/java/com/cgvsu/objreader/ObjReader.java:130-173 | split on '/': one part adds a vertex index, two add vertex and texture, three add vertex and normal and, when the middle part is not empty, texture; any other count is "Invalid element size."; the lists stay within the counts |
| ObjReader.FaceWords | Task4/Simple3DViewer/src/main/java/com/cgvsu/objreader/ObjReader.java:116-118 | the words of a face line left to right: one vertex index per word, all within the counts read so far |
| ObjReader.ParseFaceWordAddsOneVertex | Task4/Simple3DViewer/src/main/java/com/cgvsu/objreader/ObjReader.java:143-161 | a successful word adds exactly one vertex index |
| ObjReader.ParseFace | Task4/Simple3DViewer/src/main/java/com/cgvsu/objreader/ObjReader.java:111-125 | the loop fails exactly when some word does, with that word's error; otherwise a polygon with the three lists |
| ObjReader.FaceWordsErrorSticky | Task4/Simple3DViewer/src/main/java/com/cgvsu/objreader/ObjReader.java:116-118 | the first failing word's error is the line's error |
| ObjReader.ForwardReferenceFails | Task4/Simple3DViewer/src/main/java/com/cgvsu/objreader/ObjReader.java:49-50 | a face index beyond the vertices read so far is "Invalid index.", even if a later line defines it |
| ObjReader.Step | Task4/Simple3DViewer/src/main/java/com/cgvsu/objreader/ObjReader.java:24-52 | an error from a line carries that line's number (lineInd + 1) |
| ObjReader.ReadPrefixErrorSticky | Task4/Simple3DViewer/src/main/java/com/cgvsu/objreader/ObjReader.java:24-53 | the first failing line ends the read with its error |
| ObjReader.PolygonError | Task4/Simple3DViewer/src/main/java/com/cgvsu/objreader/ObjReader.java:209-243 | none exactly when the polygon is valid; otherwise the first violation in the code's order, reported with the polygon's index |
| ObjReader.PolygonsErrorFrom | Task4/Simple3DViewer/src/main/java/com/cgvsu/objreader/ObjReader.java:205-207 | none exactly when every polygon from i on is valid; otherwise the error of one of them |
| ObjReader.ModelError | Task4/Simple3DViewer/src/main/java/com/cgvsu/objreader/ObjReader.java:198-208 | "Model has no vertices." then "Model has no polygons." on line -1; none exactly when both lists are non-empty and every polygon is valid |
| ObjReader.ValidateModel | Task4/Simple3DViewer/src/main/java/com/cgvsu/objreader/ObjReader.java:198-208 | the loop reports exactly ModelError |
| ObjReader.Read | Task4/Simple3DViewer/src/main/java/com/cgvsu/objreader/ObjReader.java:19-60 | the loop over the lines and the validation compute the read specification: the first line error, else the validation error, else the model |
| ObjReader.ReadSuccessIsValid | Task4/Simple3DViewer/src/main/java/com/cgvsu/objreader/ObjReader.java:19-60 | a successful read has vertices, polygons and only valid polygons |
| ObjReader.StepKeepsIndicesInRange | Task4/Simple3DViewer/src/main/java/com/cgvsu/objreader/ObjReader.java:46-50 | a line keeps every polygon's indices within the current counts, since indices resolve against the counts at their line and counts only grow |
| ObjReader.ReadPrefixIndicesInRange | Task4/Simple3DViewer/src/main/java/com/cgvsu/objreader/ObjReader.java:24-53 | after any successful prefix every polygon's indices are in range |
| ObjReader.ReadNeverReportsIndexErrors | Task4/Simple3DViewer/src/main/java/com/cgvsu/objreader/ObjReader.java:198-243 | after a successful parse, validation can never report an invalid vertex, texture or normal index |
| ObjReader.IgnoredLines | Task4/Simple3DViewer/src/main/java/com/cgvsu/objreader/ObjReader.java:26-51 | a line with no words is skipped without counting; a line with another first word counts but changes nothing |
| ObjReader.StepAppends | Task4/Simple3DViewer/src/main/java/com/cgvsu/objreader/ObjReader.java:46-50 | each line appends at most one element to each list, keeping what was there; a list grows exactly when the line's first word is its token |
| ObjReader.ReadPrefixCounts | Task4/Simple3DViewer/src/main/java/com/cgvsu/objreader/ObjReader.java:24-53 | after a successful parse each list holds one element per line of its token |
| ObjReader.ReadPrefixExtends | Task4/Simple3DViewer/src/main/java/com/cgvsu/objreader/ObjReader.java:24-53 | the model after a prefix of the lines is a prefix, list by list, of the model after all of them |
| ObjReader.TrailingCommentRejected | Task4/Simple3DViewer/src/main/java/com/cgvsu/objreader/ObjReader.java:63-67 | "v 1 2 3 # c" is rejected as too many vertex arguments, because comments are not stripped |
| ObjReader.LongVertexLineRejected | Task4/Simple3DViewer/src/main/java/com/cgvsu/objreader/ObjReader.java:63-67 | a v line with more than three arguments is rejected whatever they are |
| ObjReader.CommentLineWords | Task4/Simple3DViewer/src/main/java/com/cgvsu/objreader/ObjReader.java:26 | the whitespace split of "v 1 2 3 # c" is its six words |
| ModelValidator.FirstError | Task4/Simple3DViewer/src/main/java/com/cgvsu/objwriter/ModelValidator.java:42-48 | none exactly when every element from i on passes; otherwise the error of the first element that fails |
| ModelValidator.FloatError2 | Task4/Simple3DViewer/src/main/java/com/cgvsu/objwriter/ModelValidator.java:175-182 | none exactly when both components are finite; NaN is reported before infinity |
| ModelValidator.FloatError3 | Task4/Simple3DViewer/src/main/java/com/cgvsu/objwriter/ModelValidator.java:184-191 | none exactly when all three components are finite; NaN is reported before infinity |
| ModelValidator.NormalLengthError | Task4/Simple3DViewer/src/main/java/com/cgvsu/objwriter/ModelValidator.java:193-203 | none exactly when abs(x² + y² + z² - 1) <= 0.01 |
| ModelValidator.VertexError | Task4/Simple3DViewer/src/main/java/com/cgvsu/objwriter/ModelValidator.java:43-47 | none exactly when the vertex is present and finite |
| ModelValidator.TextureError | Task4/Simple3DViewer/src/main/java/com/cgvsu/objwriter/ModelValidator.java:57-61 | none exactly when the texture vertex is present and finite |
| ModelValidator.NormalError | Task4/Simple3DViewer/src/main/java/com/cgvsu/objwriter/ModelValidator.java:71-77 | none exactly when the normal is present, finite and of near-unit length |
| ModelValidator.VerticesError | Task4/Simple3DViewer/src/main/java/com/cgvsu/objwriter/ModelValidator.java:34-49 | a null list and an empty list have their own messages; none exactly when the list is non-empty and every vertex passes |
| ModelValidator.TexturesError | Task4/Simple3DViewer/src/main/java/com/cgvsu/objwriter/ModelValidator.java:51-63 | a null list passes; otherwise none exactly when every texture vertex passes |
| ModelValidator.NormalsError | Task4/Simple3DViewer/src/main/java/com/cgvsu/objwriter/ModelValidator.java:65-79 | a null list passes; otherwise none exactly when every normal passes |
| ModelValidator.RangeError | Task4/Simple3DViewer/src/main/java/com/cgvsu/objwriter/ModelValidator.java:132-138 | none exactly when every index lies in [0, count) |
| ModelValidator.PolygonError | Task4/Simple3DViewer/src/main/java/com/cgvsu/objwriter/ModelValidator.java:100-173 | none exactly when the polygon is present, has at least 3 vertex indices in range, and each non-empty texture or normal list matches that length and is in range |
| ModelValidator.PolygonsError | Task4/Simple3DViewer/src/main/java/com/cgvsu/objwriter/ModelValidator.java:81-98 | a null list and an empty list have their own messages; a null texture or normal list counts as zero; none exactly when every polygon passes |
| ModelValidator.Validate | Task4/Simple3DViewer/src/main/java/com/cgvsu/objwriter/ModelValidator.java:14-32 | a null model, then the vertex checks, then the texture checks, then the normal checks, then the polygon checks; the result is the error of the first step that fails, each step reached only when all before it pass |
| ModelValidator.ValidateAcceptsExactlyValid | Task4/Simple3DViewer/src/main/java/com/cgvsu/objwriter/ModelValidator.java:14-203 | the checklist accepts exactly the models with the properties stated without it |
| ModelValidator.NoVerticesReportedFirst | Task4/Simple3DViewer/src/main/java/com/cgvsu/objwriter/ModelValidator.java:22-40 | a model without vertices reports that, whatever its polygons |
| ModelValidator.NaNBeforeInfinity | Task4/Simple3DViewer/src/main/java/com/cgvsu/objwriter/ModelValidator.java:184-191 | a vector holding both NaN and an infinity reports the NaN |
| ObjWriter.DropTrailingZeros | src/main/java/com/cgvsu/objwriter/ObjWriter.java:161 | the result is a prefix of the text that does not end in '0', and everything removed was '0' |
| ObjWriter.TrimFraction | src/main/java/com/cgvsu/objwriter/ObjWriter.java:160-165 | text without a '.' is unchanged; otherwise the result is a prefix and only zeros and the '.' were removed |
| ObjWriter.TrimFractionLeavesNoTrailingZero | src/main/java/com/cgvsu/objwriter/ObjWriter.java:160-165 | after trimming, a number that still has a fraction ends in neither '0' nor '.' |
| ObjWriter.TrimFractionIdempotent | src/main/java/com/cgvsu/objwriter/ObjWriter.java:160-165 | trimming twice is trimming once |
| ObjWriter.FormatFloat | src/main/java/com/cgvsu/objwriter/ObjWriter.java:154-168 | NaN is written "NaN", the infinities "Inf" and "-Inf"; a finite value as its six-decimal text with the fraction's trailing zeros and then a bare point removed: a prefix of that text from which only '0' and '.' characters were dropped |
| ObjWriter.TaggedLine | src/main/java/com/cgvsu/objwriter/ObjWriter.java:57-76 | the "o " name line (57-59) and the "# " comment line (72-76) appear exactly when the text is non-null and not blank once trimmed, and are then the tag, the trimmed text and a newline |
| ObjWriter.Present | src/main/java/com/cgvsu/objwriter/ObjWriter.java:130-131 | a list is written exactly when it is non-null and non-empty |
| ObjWriter.FaceLine | src/main/java/com/cgvsu/objwriter/ObjWriter.java:121-152 | a null polygon writes nothing, one without vertex indices writes a bare "f" with no newline, any other an "f" line ending in a newline |
| ObjWriter.ValidIsWritable | src/main/java/com/cgvsu/objwriter/ObjWriter.java:23-24 | a model the validator accepts has nothing null that the encoder dereferences |
| ObjWriter.ContentOfValidEndsWithNewline | src/main/java/com/cgvsu/objwriter/ObjWriter.java:52-70 | the text of a valid model ends in a newline |
| ObjWriter.FaceLinesEndWithNewline | src/main/java/com/cgvsu/objwriter/ObjWriter.java:112-119 | the face block ends in a newline when its last polygon has vertex indices |
| ObjWriter.AppendVertices | src/main/java/com/cgvsu/objwriter/ObjWriter.java:78-87 | appends exactly the v lines of the vertices, nothing for a null or empty list |
| ObjWriter.AppendTextureVertices | src/main/java/com/cgvsu/objwriter/ObjWriter.java:89-98 | appends a blank line and the vt lines, nothing for a null or empty list |
| ObjWriter.AppendNormals | src/main/java/com/cgvsu/objwriter/ObjWriter.java:100-110 | appends a blank line and the vn lines, nothing for a null or empty list |
| ObjWriter.AppendPolygon | src/main/java/com/cgvsu/objwriter/ObjWriter.java:121-152 | appends exactly the face line of the polygon |
| ObjWriter.AppendPolygons | src/main/java/com/cgvsu/objwriter/ObjWriter.java:112-119 | appends a blank line and the face lines, nothing for a null or empty list |
| ObjWriter.BuildObjContent | src/main/java/com/cgvsu/objwriter/ObjWriter.java:52-70 | the text is the comment, name, vertex, texture, normal and face sections in that order |
| ObjWriter.ModelToString | src/main/java/com/cgvsu/objwriter/ObjWriter.java:32-50 | a null model and a model the validator rejects give their errors; otherwise the result is the content of the model |
| ObjWriter.ModelToStringDefault | src/main/java/com/cgvsu/objwriter/ObjWriter.java:28-30 | succeeds exactly when the validator accepts, with the default comment |
| ObjWriter.Write | src/main/java/com/cgvsu/objwriter/ObjWriter.java:20-26 | the model check, then the path check, then the validator; on success the text written is the content with the default comment |
| ObjWriter.VertexLineReadBack | Task4/Simple3DViewer/src/main/java/com/cgvsu/objreader/ObjReader.java:63-80 | a written v line read back by the reader appends the same vertex |
| ObjWriter.IndexTextReadBack | Task4/Simple3DViewer/src/main/java/com/cgvsu/objreader/ObjReader.java:175-197 | a written 1-based index in range is parsed back to the 0-based index |
| ObjWriter.FaceRefReadBack | Task4/Simple3DViewer/src/main/java/com/cgvsu/objreader/ObjReader.java:130-173 | a written face reference in each of its forms v, v/t, v//n and v/t/n is parsed back to the same indices |
| JavaText.WrapInt | src/main/java/com/cgvsu/objwriter/ObjWriter.java:138 | the result is a 32-bit int congruent to the input modulo 2^32, and an int is left alone |
| JavaText.ParseInt | Task4/Simple3DViewer/src/main/java/com/cgvsu/objreader/ObjReader.java:177 | a value exactly for an optional sign followed by one or more ASCII digits whose signed value fits in 32 bits, and that value |
| JavaText.NatToStringValue | src/main/java/com/cgvsu/objwriter/ObjWriter.java:138 | the decimal digits written for a number denote it |
| JavaText.ParseIntToString | Task4/Simple3DViewer/src/main/java/com/cgvsu/objreader/ObjReader.java:177 | parsing the decimal text of an int gives the int back |
| JavaText.Trim | src/main/java/com/cgvsu/objwriter/ObjWriter.java:57-58 | a contiguous slice of the text, with only trimmable characters (code units up to U+0020) cut from either end, and none left at either end |
| JavaText.SplitOnSpaces | Task4/Simple3DViewer/src/main/java/com/cgvsu/objreader/ObjReader.java:26 | no word contains white space and only the first word can be empty |
| JavaText.SplitOn | Task4/Simple3DViewer/src/main/java/com/cgvsu/objreader/ObjReader.java:141 | no piece contains the separator |
| JavaText.SplitOnSpacesJoin | Task4/Simple3DViewer/src/main/java/com/cgvsu/objreader/ObjReader.java:26 | splitting space-joined words without white space gives the words back |
| JavaText.SplitOnThree | Task4/Simple3DViewer/src/main/java/com/cgvsu/objreader/ObjReader.java:141 | "a/b/c" splits into its three parts, and an empty middle part is kept |
| JavaText.ScannerLines | Task4/Simple3DViewer/src/main/java/com/cgvsu/objreader/ObjReader.java:23-25 | empty text has no lines and no line contains a line break |
| JavaText.ScannerLinesRejoin | Task4/Simple3DViewer/src/main/java/com/cgvsu/objreader/ObjReader.java:23-25 | each line followed by the terminator that ended it (\r\n, \n, \r, U+2028, U+2029 or U+0085, or nothing for a last line that runs to the end) gives back the text exactly |
| PolygonRemoval.Used | src/main/java/com/cgvsu/removers/PolygonRemover.java:39-53 | every index any polygon lists is in the set, and nothing else is |
| PolygonRemoval.Orphans | src/main/java/com/cgvsu/removers/PolygonRemover.java:56-64 | exactly the positions below the count that no polygon uses |
| PolygonRemoval.CollectUsage | src/main/java/com/cgvsu/removers/PolygonRemover.java:39-53 | the used vertex, texture and normal sets of the polygons, with nothing orphaned yet |
| PolygonRemoval.FindOrphanedElements | src/main/java/com/cgvsu/removers/PolygonRemover.java:56-64 | the loop yields exactly the unused positions |
| PolygonRemoval.FindOriginallyOrphanedElements | src/main/java/com/cgvsu/removers/PolygonRemover.java:66-83 | the usage and orphans of the model's lists, a null texture or normal list giving no orphans |
| PolygonRemoval.Insert | src/main/java/com/cgvsu/removers/PolygonRemover.java:91-92 | inserting into a non-increasing list keeps it non-increasing and adds exactly the element |
| PolygonRemoval.SortDescending | src/main/java/com/cgvsu/removers/PolygonRemover.java:91-92 | the result is non-increasing and a permutation of the input |
| PolygonRemoval.RemoveSelectedPolygons | src/main/java/com/cgvsu/removers/PolygonRemover.java:85-99 | the polygon list is the input with the in-range indices removed from the largest down; no other field changes |
| PolygonRemoval.RemoveInOrderSurviving | src/main/java/com/cgvsu/removers/PolygonRemover.java:94-98 | removing strictly decreasing positions one by one deletes exactly those positions, keeping the order of the rest |
| PolygonRemoval.RemoveSelectedDistinct | src/main/java/com/cgvsu/removers/PolygonRemover.java:85-99 | with distinct indices the result is the polygons at the positions not selected, in order |
| PolygonRemoval.DuplicateIndexRemovesTwo | src/main/java/com/cgvsu/removers/PolygonRemover.java:91-98 | a repeated index removes two polygons, since the second removal sees the shifted list |
| PolygonRemoval.IndexMapCorrect | src/main/java/com/cgvsu/removers/PolygonRemover.java:101-117 | the map sends a dropped position to -1 and a kept one to the position of the same element in the new list, preserving order |
| PolygonRemoval.RebuildElementList | src/main/java/com/cgvsu/removers/PolygonRemover.java:101-117 | the new list is the kept elements in order and the map is their new positions |
| PolygonRemoval.Remap | src/main/java/com/cgvsu/removers/PolygonRemover.java:119-122 | the result is null exactly when the indices or the map are null |
| PolygonRemoval.RemapIndices | src/main/java/com/cgvsu/removers/PolygonRemover.java:119-134 | the loop yields the indices sent through the map, dropping those out of range or mapped to -1 |
| PolygonRemoval.RemapPreservesElements | src/main/java/com/cgvsu/removers/PolygonRemover.java:119-134 | indices of kept elements are remapped one for one and still denote the same elements |
| PolygonRemoval.RemapPolygons | src/main/java/com/cgvsu/removers/PolygonRemover.java:171-177 | every polygon has its three lists remapped by the matching maps |
| PolygonRemoval.Reclaim | src/main/java/com/cgvsu/removers/PolygonRemover.java:136-178 | the polygon count is unchanged and a texture or normal list survives exactly when it was non-empty |
| PolygonRemoval.RemoveNewlyOrphanedElements | src/main/java/com/cgvsu/removers/PolygonRemover.java:136-178 | the model's lists become the compacted lists and remapped polygons; the transform and name are unchanged |
| PolygonRemoval.RemovePolygons | src/main/java/com/cgvsu/removers/PolygonRemover.java:10-29 | a null model is rejected; otherwise the deletion alone, or the deletion then the reclamation keeping what was orphaned beforehand |
| PolygonRemoval.ReclaimedPolygonKeepsVertices | src/main/java/com/cgvsu/removers/PolygonRemover.java:146-177 | after reclamation each remaining polygon's vertex indices denote the same vertices as before |
| PolygonRemoval.ReclaimedPolygonKeepsTextures | src/main/java/com/cgvsu/removers/PolygonRemover.java:146-177 | when the model has texture vertices, each remaining polygon's texture indices denote the same texture vertices as before |
| PolygonRemoval.ReclaimedPolygonKeepsNormals | src/main/java/com/cgvsu/removers/PolygonRemover.java:146-177 | when the model has normals, each remaining polygon's normal indices denote the same normals as before |
| PolygonRemoval.ReclaimDropsEmptyLists | src/main/java/com/cgvsu/removers/PolygonRemover.java:151-176 | an empty or null texture or normal list becomes null on the model and on every polygon |
| PolygonRemoval.SurvivesIffUsedOrOrphan | src/main/java/com/cgvsu/removers/PolygonRemover.java:107-113 | an element survives exactly when a remaining polygon uses it or it was orphaned before the deletion |
| PolygonRemoval.RemoveThenReset | src/main/java/com/cgvsu/removers/PolygonRemover.java:10-29 | reclamation leaves the saved originals alone, so a later reset restores the uncompacted vertices |
| Triangulation.Triangle | src/main/java/com/cgvsu/triangulation/Triangulation.java:20-27 | a triangle with the three given vertex indices and empty texture and normal lists |
| Triangulation.FanOf | src/main/java/com/cgvsu/triangulation/Triangulation.java:15-29 | a polygon of n >= 3 vertices gives n - 2 triangles, fewer gives none |
| Triangulation.Triangulate | src/main/java/com/cgvsu/triangulation/Triangulation.java:9-32 | the loop yields the fans of all polygons in order |
| Triangulation.FanAllLength | src/main/java/com/cgvsu/triangulation/Triangulation.java:9-32 | the triangle count is the sum over the polygons of n - 2 for those with at least three vertices |
| Triangulation.FanAllAppend | src/main/java/com/cgvsu/triangulation/Triangulation.java:12-30 | triangulating a concatenation concatenates the triangulations |
| Triangulation.FanAllInRange | src/main/java/com/cgvsu/triangulation/Triangulation.java:12-30 | every triangle uses only vertex indices the polygons used, so indices in range stay in range |
| Triangulation.FanOfTriangle | src/main/java/com/cgvsu/triangulation/Triangulation.java:19-29 | triangle i - 1 of a fan is (v0, vi, vi+1) |
| Triangulation.DegenerateDropped | src/main/java/com/cgvsu/triangulation/Triangulation.java:15-17 | a polygon with fewer than three vertices contributes nothing |
| Triangulation.QuadFan | src/main/java/com/cgvsu/triangulation/Triangulation.java:19-29 | a quad (a, b, c, d) becomes (a, b, c) and (a, c, d) |
| Normalization.TriangleNormal | src/main/java/com/cgvsu/normalization/Normalization.java:43-47 | the normal is orthogonal to both edges from the first vertex |
| Normalization.AddAt | src/main/java/com/cgvsu/normalization/Normalization.java:28-30 | the list keeps its length |
| Normalization.GetVertexNormals | src/main/java/com/cgvsu/normalization/Normalization.java:10-41 | IndexOutOfBoundsException exactly when some polygon has fewer than three vertex indices or an index outside the vertex list; otherwise the three loops yield the normalised sums of the adjacent face normals |
| Normalization.AddAtValue | src/main/java/com/cgvsu/normalization/Normalization.java:28-30 | each slot gains the normal once per occurrence of its index |
| Normalization.AccumulatedIsContribution | src/main/java/com/cgvsu/normalization/Normalization.java:19-31 | the accumulated vector of a vertex is the sum of the normals of the faces listing it, counted with multiplicity |
| Normalization.UnreferencedVertexIsZero | src/main/java/com/cgvsu/normalization/Normalization.java:14-38 | a vertex no face lists gets the zero normal |
| Normalization.VertexNormalAt | src/main/java/com/cgvsu/normalization/Normalization.java:33-38 | each result is the accumulated vector, normalised when its length is positive |
| Normalization.NormalOfAccumulator | src/main/java/com/cgvsu/normalization/Normalization.java:33-38 | an accumulated vector at least epsilon long becomes itself divided by its length (the result times that length gives it back); a shorter one becomes zero, and a zero one stays zero |
| IndexShift.ShiftLine | src/main/java/com/cgvsu/GuiController.java:452-488 | a line that is not a face line is copied with a newline |
| IndexShift.Shift | src/main/java/com/cgvsu/GuiController.java:444-447 | zero offsets return the text unchanged |
| IndexShift.ShiftLinesStopAt | src/main/java/com/cgvsu/GuiController.java:452-489 | an uncaught error on one line ends the whole rewrite with that error |
| IndexShift.ShiftFace | src/main/java/com/cgvsu/GuiController.java:455-485 | the loop yields the face text of the tokens |
| IndexShift.ShiftOneLine | src/main/java/com/cgvsu/GuiController.java:453-488 | the method yields the line's rewrite |
| IndexShift.ShiftIndices | src/main/java/com/cgvsu/GuiController.java:444-492 | the method yields the rewrite of the whole text |
| IndexShift.ShiftTokenOfRef | src/main/java/com/cgvsu/GuiController.java:461-480 | each reference form v, v/t, v//n and v/t/n is rewritten in the same form with each index moved by its offset |
| IndexShift.ShiftRefInverse | src/main/java/com/cgvsu/GuiController.java:463-474 | shifting by the negated offsets undoes a shift that stayed in the int range |
| IndexShift.PartialPrefixBeforeCopy | src/main/java/com/cgvsu/GuiController.java:462-483 | a token whose texture field does not parse keeps the shifted vertex index before the verbatim copy |
| IndexShift.SlashOnlyToken | src/main/java/com/cgvsu/GuiController.java:461-463 | a token of slashes alone fails on its missing first field |
| IndexShift.FaceTextOfRefs | src/main/java/com/cgvsu/GuiController.java:455-485 | a face of well-formed references becomes "f" followed by the shifted references |
| IndexShift.OneOutputLinePerInputLine | src/main/java/com/cgvsu/GuiController.java:449-491 | with non-zero offsets each input line gives exactly one output line |
| TransformControllers.ChangedAll | src/main/java/com/cgvsu/ui/ModelTransformController.java:198-203 | one change notification per listener, in registration order |
| TransformControllers.AppliedAll | src/main/java/com/cgvsu/ui/ModelTransformController.java:165-167 | one applied notification per listener carrying the transformed model, in registration order |
| TransformControllers.IndexOf | src/main/java/com/cgvsu/ui/ModelTransformController.java:209-211 | the position of the first registration of a listener |
| TransformControllers.RemoveFirst | src/main/java/com/cgvsu/ui/ModelTransformController.java:209-211 | an unregistered listener changes nothing; otherwise exactly its first registration is removed |
| TransformControllers.AddThenRemove | src/main/java/com/cgvsu/ui/ModelTransformController.java:205-211 | adding a new listener and removing it restores the list |
| TransformControllers.RebuiltAtRest | src/main/java/com/cgvsu/ui/ModelTransformController.java:39-49 | with exact trigonometry at 0°, rebuilding from the initial vectors gives the identity the constructor stores |
| TransformControllers.ModelTransformController.constructor | src/main/java/com/cgvsu/ui/ModelTransformController.java:39-49 | no model and no listeners; zero translation and rotation, unit scale and the identity matrix |
| TransformControllers.ModelTransformController.WithModel | src/main/java/com/cgvsu/ui/ModelTransformController.java:51-54 | the constructor, then setModel |
| TransformControllers.ModelTransformController.SetModel | src/main/java/com/cgvsu/ui/ModelTransformController.java:56-68 | the model is stored and takes over the controller's matrix source; the listeners are told only when a model is given |
| TransformControllers.ModelTransformController.NotifyTransformChanged | src/main/java/com/cgvsu/ui/ModelTransformController.java:198-203 | each listener is told once, in order |
| TransformControllers.ModelTransformController.UpdateTransformation | src/main/java/com/cgvsu/ui/ModelTransformController.java:140-156 | the matrix becomes the rebuild of scale, rotation and translation, the model holds it and every listener is told; only the model's matrix is written, its lists and name stay |
| TransformControllers.ModelTransformController.Translate | src/main/java/com/cgvsu/ui/ModelTransformController.java:79-82 | the translation grows by the step and the matrix is rebuilt; only the model's matrix is written, its lists and name stay |
| TransformControllers.ModelTransformController.SetTranslation | src/main/java/com/cgvsu/ui/ModelTransformController.java:84-87 | the translation is replaced and the matrix is rebuilt; only the model's matrix is written, its lists and name stay |
| TransformControllers.ModelTransformController.RotateX | src/main/java/com/cgvsu/ui/ModelTransformController.java:89-96 | only the x angle grows and the matrix is rebuilt; only the model's matrix is written, its lists and name stay |
| TransformControllers.ModelTransformController.RotateY | src/main/java/com/cgvsu/ui/ModelTransformController.java:98-105 | only the y angle grows and the matrix is rebuilt; only the model's matrix is written, its lists and name stay |
| TransformControllers.ModelTransformController.RotateZ | src/main/java/com/cgvsu/ui/ModelTransformController.java:107-114 | only the z angle grows and the matrix is rebuilt; only the model's matrix is written, its lists and name stay |
| TransformControllers.ModelTransformController.SetRotation | src/main/java/com/cgvsu/ui/ModelTransformController.java:116-119 | the angles are replaced and the matrix is rebuilt; only the model's matrix is written, its lists and name stay |
| TransformControllers.ModelTransformController.Scale | src/main/java/com/cgvsu/ui/ModelTransformController.java:121-128 | the scale is multiplied component-wise and the matrix is rebuilt; only the model's matrix is written, its lists and name stay |
| TransformControllers.ModelTransformController.SetScale | src/main/java/com/cgvsu/ui/ModelTransformController.java:130-133 | the scale is replaced and the matrix is rebuilt; only the model's matrix is written, its lists and name stay |
| TransformControllers.ModelTransformController.ScaleUniform | src/main/java/com/cgvsu/ui/ModelTransformController.java:135-137 | the scale is multiplied by the factor on every axis; only the model's matrix is written, its lists and name stay |
| TransformControllers.ModelTransformController.ResetTransformation | src/main/java/com/cgvsu/ui/ModelTransformController.java:175-186 | the initial vectors and the identity, handed to the model, and the listeners told once; only the model's matrix is written, its lists and name stay |
| TransformControllers.ModelTransformController.ApplyTransformation | src/main/java/com/cgvsu/ui/ModelTransformController.java:159-172 | without a model nothing happens; a model with a null texture or normal list, or with normals and a singular normal matrix, throws before any change; otherwise a copy named name + " (transformed)" with the vertices through the old matrix, the same texture and polygon lists and the normals through the normal matrix goes to every listener, and the transform is reset; the model keeps its lists and gets the identity |
| TransformControllers.ModelTransformController.NotifyTransformApplied | src/main/java/com/cgvsu/ui/ModelTransformController.java:165-167 | each listener receives the transformed model once, in order |
| TransformControllers.ModelTransformController.GetTransformedModel | src/main/java/com/cgvsu/ui/ModelTransformController.java:189-196 | null without a model, otherwise the model's transformed copy; the controller does not change |
| TransformControllers.ModelTransformController.AddTransformChangeListener | src/main/java/com/cgvsu/ui/ModelTransformController.java:205-207 | the listener is appended |
| TransformControllers.ModelTransformController.RemoveTransformChangeListener | src/main/java/com/cgvsu/ui/ModelTransformController.java:209-211 | the first registration of the listener is removed |
| InputManagers.NextFocus | src/ru/kirill/task4_4_1/input/InputManager.java:100-114 | the result is never UI, and CAMERA and MODEL swap |
| InputManagers.SwitchTwice | src/ru/kirill/task4_4_1/input/InputManager.java:100-117 | switching twice returns to CAMERA or MODEL, and from UI ends on MODEL |
| InputManagers.WithDefaults | src/ru/kirill/task4_4_1/input/InputManager.java:53-97 | the seven built-in keys are bound to their actions, and R and ENTER exactly when there is a model controller |
| InputManagers.InputManager.constructor | src/ru/kirill/task4_4_1/input/InputManager.java:42-46 | focus on the camera, camera control on, the built-in keys bound and no model keys |
| InputManagers.InputManager.WithModelController | src/ru/kirill/task4_4_1/input/InputManager.java:48-51 | the hotkeys are bound before the controller is stored, so R and ENTER stay unbound |
| InputManagers.InputManager.SetModelController | src/ru/kirill/task4_4_1/input/InputManager.java:300-303 | the controller is stored and the hotkeys rebuilt, binding R and ENTER when it is present |
| InputManagers.InputManager.UpdateControlStates | src/ru/kirill/task4_4_1/input/InputManager.java:119-134 | the two flags follow the focus |
| InputManagers.InputManager.SwitchControlFocus | src/ru/kirill/task4_4_1/input/InputManager.java:100-117 | the focus moves to the next one and the flags follow it |
| InputManagers.InputManager.SetCurrentFocus | src/ru/kirill/task4_4_1/input/InputManager.java:318-321 | the focus is the given one and the flags follow it |
| InputManagers.InputManager.SetCameraControlEnabled | src/ru/kirill/task4_4_1/input/InputManager.java:306-309 | sets the flag, and enabling it moves the focus to the camera |
| InputManagers.InputManager.SetModelControlEnabled | src/ru/kirill/task4_4_1/input/InputManager.java:312-315 | sets the flag, and enabling it moves the focus to the model |
| InputManagers.InputManager.AddHotkey | src/ru/kirill/task4_4_1/input/InputManager.java:323-325 | the key is bound to the action, replacing any earlier binding |
| InputManagers.InputManager.RemoveHotkey | src/ru/kirill/task4_4_1/input/InputManager.java:327-329 | the key is unbound and the other bindings stay |
| InputManagers.InputManager.RunAction | src/ru/kirill/task4_4_1/input/InputManager.java:53-143 | C and M flip their flag, TAB switches focus, ESC resets the camera and the model, R and ENTER throw without a model controller |
| InputManagers.InputManager.KeyPressed | src/ru/kirill/task4_4_1/input/InputManager.java:267-280 | a bound key runs its action first, leaving the flags and the focus as that action does (C and M flip their flag, TAB moves the focus on, the rest keep both); the key then goes to the camera controller exactly when camera control is enabled, and an action that throws ends the call |
| InputManagers.InputManager.Delegate | src/ru/kirill/task4_4_1/input/InputManager.java:234-295 | mouse events, key releases and updates go to the camera controller exactly when camera control is enabled |
| InputManagers.NullControllerKeepsModelKeys | src/ru/kirill/task4_4_1/input/InputManager.java:85-96 | rebuilding the hotkeys without a controller leaves stale R and ENTER bindings in place |
| Rasterization.Sign | src/main/java/com/cgvsu/triangulation/TriangleRasterization.java:201-202 | the sign of the difference: 1, -1 or 0 exactly as it is positive, negative or zero |
| Rasterization.Line | src/main/java/com/cgvsu/triangulation/TriangleRasterization.java:192-236 | one pixel per step of the longer axis plus the start, each the walk's position after that many steps |
| Rasterization.DrawLine | src/main/java/com/cgvsu/triangulation/TriangleRasterization.java:192-236 | the loop with its error term sets exactly the pixels of the line, in order |
| Rasterization.WalkPrefixIsLine | src/main/java/com/cgvsu/triangulation/TriangleRasterization.java:218-235 | the pixels set after t steps are the walk's first t + 1 positions |
| Rasterization.ErrorBounds | src/main/java/com/cgvsu/triangulation/TriangleRasterization.java:220-232 | the error term stays in [0, el) after every step |
| Rasterization.WrapCountClosedForm | src/main/java/com/cgvsu/triangulation/TriangleRasterization.java:223-232 | the number of minor-axis steps after t major steps is (t·es + el − 1 − el div 2) div el, that is ⌈(t·es − el div 2) / el⌉ (for the line (0,0)→(2,1) no minor step has been made after one step) |
| Rasterization.WalkClosedForm | src/main/java/com/cgvsu/triangulation/TriangleRasterization.java:218-235 | the walk after t steps is the start plus t along the longer axis and that count along the other |
| Rasterization.LineEnds | src/main/java/com/cgvsu/triangulation/TriangleRasterization.java:218-235 | the line starts at the first end point and ends exactly at the second |
| Rasterization.LineSteps | src/main/java/com/cgvsu/triangulation/TriangleRasterization.java:223-232 | each step moves one along the longer axis and zero or one along the other, towards the end, so pixels touch |
| Rasterization.DrawTriangle | src/main/java/com/cgvsu/triangulation/TriangleRasterization.java:13-22 | the three edge lines 1→2, 2→3 and 3→1 in order |
| Rasterization.OutlineIsClosed | src/main/java/com/cgvsu/triangulation/TriangleRasterization.java:13-22 | each edge starts where the previous one ended and the last ends at vertex 1 |
| Rasterization.Clamp01 | src/main/java/com/cgvsu/triangulation/TriangleRasterization.java:304 | t is clamped into [0, 1], unchanged inside it |
| Rasterization.InterpolateColor | src/main/java/com/cgvsu/triangulation/TriangleRasterization.java:303-311 | fully opaque, with each channel at most 1 |
| Rasterization.InterpolateColorProperties | src/main/java/com/cgvsu/triangulation/TriangleRasterization.java:303-311 | colours in gamut blend into a colour in gamut, equal to the first at t <= 0 and to the second at t >= 1 |
| Rasterization.DrawLineInterpolated | src/main/java/com/cgvsu/triangulation/TriangleRasterization.java:241-298 | nothing for a zero-length line, otherwise the pixels of drawLine followed by the end point once more |
| Rasterization.InterpolatedLineRepeatsEnd | src/main/java/com/cgvsu/triangulation/TriangleRasterization.java:279-297 | the final write lands on the pixel the walk ended on, so the set of pixels is that of drawLine |
| Rasterization.DrawInterpolatedTriangle | src/main/java/com/cgvsu/triangulation/TriangleRasterization.java:27-36 | the three interpolated edges in order |
| Rasterization.SwapAt | src/main/java/com/cgvsu/triangulation/TriangleRasterization.java:316-329 | positions i and j exchange and everything else stays |
| Rasterization.SwapReorders | src/main/java/com/cgvsu/triangulation/TriangleRasterization.java:53-65 | a swap keeps both arrays a reordering of the originals by the same permutation |
| Rasterization.OrderPair | src/main/java/com/cgvsu/triangulation/TriangleRasterization.java:55-63 | the pair is swapped in both arrays exactly when the first y is larger |
| Rasterization.SortByY | src/main/java/com/cgvsu/triangulation/TriangleRasterization.java:50-65 | the ys end up non-decreasing and the xs and ys are reordered by the same permutation |
| Rasterization.Swap | src/main/java/com/cgvsu/triangulation/TriangleRasterization.java:316-329 | the array has positions i and j exchanged |
| Rasterization.OrderColouredPair | src/main/java/com/cgvsu/triangulation/TriangleRasterization.java:125-129 | the pair is swapped in all three arrays exactly when the first y is larger |
| Rasterization.SortByYWithColors | src/main/java/com/cgvsu/triangulation/TriangleRasterization.java:119-131 | the ys end up non-decreasing and the xs, ys and colours are reordered by the same permutation |
| Rasterization.Rows | src/main/java/com/cgvsu/triangulation/TriangleRasterization.java:73 | the rows from the lowest y up to, not including, the highest |
| Rasterization.ScanlineRows | src/main/java/com/cgvsu/triangulation/TriangleRasterization.java:71-73 | the loop visits exactly those rows, none for a flat triangle |
| Rasterization.FillTriangle | src/main/java/com/cgvsu/triangulation/TriangleRasterization.java:41-103 | the outline, then one span per row from the smallest y up to the largest, none when all y are equal |
| Rasterization.FillTriangleInterpolated | src/main/java/com/cgvsu/triangulation/TriangleRasterization.java:108-187 | the interpolated outline, then the same rows with the colours carried along by the sort |
| Rasterization.Min3 | src/main/java/com/cgvsu/triangulation/TriangleRasterization.java:67 | the smallest of the three |
| Rasterization.Max3 | src/main/java/com/cgvsu/triangulation/TriangleRasterization.java:69 | the largest of the three |
| Rasterization.SortedEnds | src/main/java/com/cgvsu/triangulation/TriangleRasterization.java:50-71 | after the sort the first y is the minimum and the last the maximum of the originals |

## Left out

- Floating point: `float` arithmetic is exact real arithmetic here. IEEE rounding, overflow to infinity, the digits that `%.6f` produces and what `Float.parseFloat` accepts are not modelled. The read-back lemmas for written numbers take the reader's parse of the written text as a hypothesis.
- `sin`, `cos`, `tan`, `atan2`, `sqrt` and `PI` are uninterpreted. Rotation, perspective, orthographic, lookAt and the orbit trigonometry therefore get structural properties only: fixed axes, which entries hold the translation, and which fields change.
- I/O: the file writes in `ObjWriter.write` and the file reads in the GUI are left out. `ObjWriter.Write` returns the text it would write. `Scanner` is modelled only as splitting text into lines.
- Aliasing: matrices, vectors and lists are values, so the model does not capture that Java objects are shared. Examples are the `Transformation` shared between `ModelTransformController` and its model, the `Polygon` objects shared between a model and its `applyTransformation` copy, and the defensive copies in `Matrix4f`, `ColumnVector` and `Transformation.getMatrix`. `ModelOld.copy` is stated as equal lists of equal values, not as distinct objects.
- `Polygon`, `com.cgvsu.math.Transformation` and `com.cgvsu.math.Vector3f` are not part of this model. A polygon is three index lists with plain setters. Stand-ins take the place of the missing classes:
  - `Model` and `ModelOld` hold their transformation as a 4×4 matrix built like `ru.kirill` `Transformation`'s.
  - `ModelTransformController`'s `currentTransformation` and `initialTransformation` are the same kind of matrix, rebuilt by `Models.Rebuilt`. `TransformControllers.RebuiltAtRest` and `UpdateTransformation` rest on that stand-in.
  - `Normalization` calls `length`, `normalize`, `add`, `subtract` and `cross` on `com.cgvsu.math.Vector3f`. The model uses the `ru.kirill` `Vector3f` operations instead, including `normalize`'s zero result below 1e-7 that `Normalization.NormalOfAccumulator` states.
- The `ru.kirill` `Camera`, `Model` and `Matrix4f` classes that `GraphicPipeline` uses are not part of this model. The pipeline drives the modelled graphics `Camera`. Its matrix–vector product is the `com.cgvsu` one, which does not divide by w. A comment in `GraphicPipeline.transformVertex` (GraphicPipeline.java:92-95) says the `ru.kirill` `Matrix4f.mul` divides. The model does not capture that divide: its NDC and screen outputs under a perspective projection are undivided.
- `JavaText.ParseInt`: accepts ASCII digits only. Java's `Integer.parseInt` also accepts other Unicode decimal digits through `Character.digit`, and those are not modelled.
- `GraphicPipelines.GraphicPipeline.constructor`: states only that the default camera's cached matrices are consistent, not its default field values, which the camera's own constructor states.
- The `ObjReaderException` class of the decoder's own package is not part of this model. Errors are rendered in the format of the `ru.kirill` `ObjReaderException`, which has the same shape.
- Getters, `toString`, `setName`, `setTransformation` and the null-transformation guards of `Model` and `ModelOld` are left out. They read or store a field.
- `ModelTransformController.saveInitialState` writes fields that nothing reads, so they are left out.
- The render `Camera`'s `getViewMatrix` and `getProjectionMatrix` only forward to `GraphicConveyor`, which is modelled. Its sensitivity getters and setters are left out.
- `InputManager`: the camera controller, the model controller, saving and loading a viewpoint, and the help text sit outside the model. Each call into them is recorded in order as a `ControllerCall`. `attachToComponent` and `detachFromComponent` (Swing listener registration) are left out.
- `TriangleRasterization`: the x-extent and colour of each scanline span in `fillTriangle` and `fillTriangleInterpolated`, and the per-pixel colour of `drawLineInterpolated`, are float interpolations and are not modelled. The pixels written, the vertex sort and the rows visited are modelled.
- `Rasterization.DrawLine` and the other rasteriser methods use unbounded integers, so 32-bit overflow is not modelled. It happens for coordinates near the int range, and in `drawLineInterpolated` already once `dx*dx + dy*dy` exceeds 2^31 − 1, for example when |dx| ≥ 46341.
- `ObjWriter.BuildObjContent` fixes the text section by section, with one line per vertex, texture vertex, normal and polygon by construction. The number of lines is not restated as a count of line breaks, because the opaque `%.6f` text is not known to be free of them.
- `GuiController.isPointInPolygon`, the hit tests and the rest of the GUI are left out: they are UI code over float projections.
