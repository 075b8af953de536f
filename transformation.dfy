/** The affine transformation accumulator (Transformation): one 4×4 matrix
    field that every operation reassigns. Translations multiply on the
    left; scalings and rotations multiply on the right. */
module Transformations {
  import opened Wrappers
  import opened Linear
  import V3 = Vector3
  import M4 = Matrix4
  import M3 = Matrix3
  import JavaMath

  class Transformation {
    var matrix: Mat4

    /** new Transformation(): the identity. */
    constructor()
      ensures matrix == M4.Identity()
    {
      matrix := M4.Identity();
    }

    /** applyTranslation: M' = T·M. */
    method ApplyTranslation(tx: real, ty: real, tz: real)
      modifies this
      ensures matrix == M4.Product(M4.Translation(tx, ty, tz), old(matrix))
    {
      matrix := M4.Mul(M4.Translation(tx, ty, tz), matrix);
    }

    /** applyScaling: M' = M·S. */
    method ApplyScaling(sx: real, sy: real, sz: real)
      modifies this
      ensures matrix == M4.Product(old(matrix), M4.Scaling(sx, sy, sz))
    {
      matrix := M4.Mul(matrix, M4.Scaling(sx, sy, sz));
    }

    /** applyRotationX/Y/Z: M' = M·R. */
    method ApplyRotationX(degrees: real)
      modifies this
      ensures matrix == M4.Product(old(matrix), M4.RotationX(degrees))
    {
      matrix := M4.Mul(matrix, M4.RotationX(degrees));
    }

    method ApplyRotationY(degrees: real)
      modifies this
      ensures matrix == M4.Product(old(matrix), M4.RotationY(degrees))
    {
      matrix := M4.Mul(matrix, M4.RotationY(degrees));
    }

    method ApplyRotationZ(degrees: real)
      modifies this
      ensures matrix == M4.Product(old(matrix), M4.RotationZ(degrees))
    {
      matrix := M4.Mul(matrix, M4.RotationZ(degrees));
    }

    /** applyRotation(x, y, z): X, then Y, then Z, each on the right. */
    method ApplyRotation(xDeg: real, yDeg: real, zDeg: real)
      modifies this
      ensures matrix == AfterRotation(old(matrix), xDeg, yDeg, zDeg)
    {
      ApplyRotationX(xDeg);
      ApplyRotationY(yDeg);
      ApplyRotationZ(zDeg);
    }

    /** applyTransformation(X): M' = X·M. */
    method ApplyTransformation(x: Mat4)
      modifies this
      ensures matrix == M4.Product(x, old(matrix))
    {
      matrix := M4.Mul(x, matrix);
    }

    /** combine(other): M' = other·M; other may be this transformation. */
    method Combine(other: Transformation)
      modifies this
      ensures matrix == M4.Product(old(other.matrix), old(matrix))
    {
      matrix := M4.Mul(other.matrix, matrix);
    }

    /** transform(v): M applied to the point (x, y, z, 1). */
    method Transform(v: V3.Vector3f) returns (r: V3.Vector3f)
      ensures r == M4.Transform(matrix, v)
    {
      r := M4.MulVector(matrix, v);
    }

    /** transformNormal(n): the normal matrix of M applied to n; fails when
        the upper-left block of M is singular. */
    method TransformNormal(n: V3.Vector3f) returns (r: Result<V3.Vector3f, string>)
      ensures r.Err? <==> M3.NormalMatrix(matrix).Err?
      ensures r.Ok? ==> r.value == M3.Transform(M3.NormalMatrix(matrix).value, n)
    {
      match M3.NormalMatrix(matrix)
      case Err(e) =>
        r := Err(e);
      case Ok(nm) =>
        var v := M3.MulVector(nm, n);
        r := Ok(v);
    }

    /** getMatrix: a copy of M; a matrix is a value, so the copy shares nothing. */
    method GetMatrix() returns (m: Mat4)
      ensures m == matrix
    {
      m := matrix;
    }

    /** reset: back to the identity. */
    method Reset()
      modifies this
      ensures matrix == M4.Identity()
    {
      matrix := M4.Identity();
    }
  }

  /** The matrix applyRotation(x, y, z) leaves: M·Rx·Ry·Rz. */
  function AfterRotation(m: Mat4, xDeg: real, yDeg: real, zDeg: real): Mat4
  {
    M4.Product(M4.Product(M4.Product(m, M4.RotationX(xDeg)), M4.RotationY(yDeg)), M4.RotationZ(zDeg))
  }

  /** The rotation applyRotation composes: Rx·Ry·Rz. */
  function Rotation(xDeg: real, yDeg: real, zDeg: real): Mat4
  {
    M4.Product(M4.Product(M4.RotationX(xDeg), M4.RotationY(yDeg)), M4.RotationZ(zDeg))
  }

  lemma AfterRotationIsRightProduct(m: Mat4, xDeg: real, yDeg: real, zDeg: real)
    ensures AfterRotation(m, xDeg, yDeg, zDeg) == M4.Product(m, Rotation(xDeg, yDeg, zDeg))
  {
    var rx, ry, rz := M4.RotationX(xDeg), M4.RotationY(yDeg), M4.RotationZ(zDeg);
    M4.ProductAssociative(m, rx, ry);
    M4.ProductAssociative(m, M4.Product(rx, ry), rz);
  }

  /** Running scaling, then rotation, then translation from reset leaves
      T·S·Rx·Ry·Rz: a point is rotated first, then scaled, then translated. */
  lemma ScaleRotateTranslateOrder(s: V3.Vector3f, a: V3.Vector3f, t: V3.Vector3f, p: V3.Vector3f)
    ensures var scaled := M4.Product(M4.Identity(), M4.Scaling(s.x, s.y, s.z));
            var rotated := AfterRotation(scaled, a.x, a.y, a.z);
            var m := M4.Product(M4.Translation(t.x, t.y, t.z), rotated);
            && m == M4.Product(M4.Translation(t.x, t.y, t.z), M4.Product(M4.Scaling(s.x, s.y, s.z), Rotation(a.x, a.y, a.z)))
            && M4.Transform(m, p) == M4.Transform(M4.Translation(t.x, t.y, t.z),
                                       M4.Transform(M4.Scaling(s.x, s.y, s.z),
                                         M4.Transform(Rotation(a.x, a.y, a.z), p)))
  {
    var sm := M4.Scaling(s.x, s.y, s.z);
    var tm := M4.Translation(t.x, t.y, t.z);
    var r := Rotation(a.x, a.y, a.z);
    M4.IdentityNeutral(sm);
    AfterRotationIsRightProduct(sm, a.x, a.y, a.z);
    RotationIsAffine(a.x, a.y, a.z);
    M4.BuildersAreAffine(s.x, s.y, s.z);
    M4.AffineProduct(sm, r);
    M4.TransformProduct(tm, M4.Product(sm, r), p);
    M4.TransformProduct(sm, r, p);
  }

  /** Running rotation before scaling instead gives T·R·S: scaled first. */
  lemma RotateScaleTranslateOrder(s: V3.Vector3f, a: V3.Vector3f, t: V3.Vector3f)
    ensures var rotated := AfterRotation(M4.Identity(), a.x, a.y, a.z);
            var scaled := M4.Product(rotated, M4.Scaling(s.x, s.y, s.z));
            M4.Product(M4.Translation(t.x, t.y, t.z), scaled)
              == M4.Product(M4.Translation(t.x, t.y, t.z), M4.Product(Rotation(a.x, a.y, a.z), M4.Scaling(s.x, s.y, s.z)))
  {
    AfterRotationIsRightProduct(M4.Identity(), a.x, a.y, a.z);
    M4.IdentityNeutral(Rotation(a.x, a.y, a.z));
  }

  lemma RotationIsAffine(xDeg: real, yDeg: real, zDeg: real)
    ensures M4.IsAffine(Rotation(xDeg, yDeg, zDeg))
  {
    var rx, ry, rz := M4.RotationX(xDeg), M4.RotationY(yDeg), M4.RotationZ(zDeg);
    M4.BuildersAreAffine(JavaMath.Cos(JavaMath.ToRadians(xDeg)), JavaMath.Sin(JavaMath.ToRadians(xDeg)), 0.0);
    M4.BuildersAreAffine(JavaMath.Cos(JavaMath.ToRadians(yDeg)), JavaMath.Sin(JavaMath.ToRadians(yDeg)), 0.0);
    M4.BuildersAreAffine(JavaMath.Cos(JavaMath.ToRadians(zDeg)), JavaMath.Sin(JavaMath.ToRadians(zDeg)), 0.0);
    M4.AffineProduct(rx, ry);
    M4.AffineProduct(M4.Product(rx, ry), rz);
  }

  /** A translation applied after a right multiplication is the same matrix
      as the right multiplication applied after it: T·(M·X) = (T·M)·X. */
  lemma TranslationCommutesWithRightOps(t: Mat4, m: Mat4, x: Mat4)
    ensures M4.Product(t, M4.Product(m, x)) == M4.Product(M4.Product(t, m), x)
  {
    M4.ProductAssociative(t, m, x);
  }

  /** Scaling and rotating do not commute: S·Rz differs from Rz·S. */
  lemma ScalingRotationDoNotCommute()
    ensures M4.Product(M4.Scaling(2.0, 1.0, 1.0), M4.RotationZCS(0.0, 1.0))
         != M4.Product(M4.RotationZCS(0.0, 1.0), M4.Scaling(2.0, 1.0, 1.0))
  {
    var s, r := M4.Scaling(2.0, 1.0, 1.0), M4.RotationZCS(0.0, 1.0);
    assert M4.Product(s, r)[0][1] == M4.ProductEntry(s, r, 0, 1) == -2.0;
    assert M4.Product(r, s)[0][1] == M4.ProductEntry(r, s, 0, 1) == -1.0;
  }
}
