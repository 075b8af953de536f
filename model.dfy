/** The editable mesh (Model): the four lists, a transformation, the saved
    original vertices and the translation, rotation and scale the user set.
    Setting a transform field rebuilds the vertices from the originals;
    an apply* call instead transforms the current vertices again. */
module Models {
  import opened Wrappers
  import opened Linear
  import opened Mesh
  import V2 = Vector2
  import V3 = Vector3
  import M4 = Matrix4
  import Transformations

  /** Every vertex through the matrix, count and order kept. */
  function TransformAll(m: Mat4, vs: seq<V3.Vector3f>): (r: seq<V3.Vector3f>)
    ensures |r| == |vs|
    ensures forall i :: 0 <= i < |vs| ==> r[i] == M4.Transform(m, vs[i])
  {
    if |vs| == 0 then [] else TransformAll(m, vs[..|vs| - 1]) + [M4.Transform(m, vs[|vs| - 1])]
  }

  /** The matrix applyTransformation builds from reset: applyScaling, then
      applyRotation, then applyTranslation, which is T·(S·Rx·Ry·Rz). */
  function Rebuilt(scale: V3.Vector3f, rotation: V3.Vector3f, translation: V3.Vector3f): Mat4
  {
    var scaled := M4.Product(M4.Identity(), M4.Scaling(scale.x, scale.y, scale.z));
    var rotated := Transformations.AfterRotation(scaled, rotation.x, rotation.y, rotation.z);
    M4.Product(M4.Translation(translation.x, translation.y, translation.z), rotated)
  }

  /** A rebuilt matrix rotates a point first, then scales it, then translates it. */
  lemma RebuiltOrder(scale: V3.Vector3f, rotation: V3.Vector3f, translation: V3.Vector3f, p: V3.Vector3f)
    ensures M4.Transform(Rebuilt(scale, rotation, translation), p)
            == M4.Transform(M4.Translation(translation.x, translation.y, translation.z),
                 M4.Transform(M4.Scaling(scale.x, scale.y, scale.z),
                   M4.Transform(Transformations.Rotation(rotation.x, rotation.y, rotation.z), p)))
  {
    Transformations.ScaleRotateTranslateOrder(scale, rotation, translation, p);
  }

  /** The originals after saveOriginalVertices: the vertices are copied
      only when no originals are saved yet and there are vertices. */
  function Saved(originals: seq<V3.Vector3f>, vertices: seq<V3.Vector3f>): (r: seq<V3.Vector3f>)
    ensures originals != [] ==> r == originals
    ensures originals == [] ==> r == vertices
  {
    if originals == [] && vertices != [] then vertices else originals
  }

  /** Saving twice saves once. */
  lemma SavedIdempotent(originals: seq<V3.Vector3f>, vertices: seq<V3.Vector3f>)
    ensures Saved(Saved(originals, vertices), vertices) == Saved(originals, vertices)
  {
  }

  const NO_TRANSLATION := V3.Vector3f(0.0, 0.0, 0.0)
  const NO_ROTATION := V3.Vector3f(0.0, 0.0, 0.0)
  const UNIT_SCALE := V3.Vector3f(1.0, 1.0, 1.0)

  class Model {
    var vertices: seq<V3.Vector3f>
    var textureVertices: Option<seq<V2.Vector2f>>
    var normals: Option<seq<V3.Vector3f>>
    var polygons: seq<Polygon>
    var transformation: Mat4
    var name: string
    var originalVertices: seq<V3.Vector3f>
    var translation: V3.Vector3f
    var rotation: V3.Vector3f
    var scale: V3.Vector3f

    /** new Model(): "Unnamed Model", empty lists, the identity, no
        translation or rotation and unit scale. */
    constructor()
      ensures vertices == [] && textureVertices == Some([]) && normals == Some([]) && polygons == []
      ensures transformation == M4.Identity() && name == "Unnamed Model" && originalVertices == []
      ensures translation == NO_TRANSLATION && rotation == NO_ROTATION && scale == UNIT_SCALE
    {
      vertices, textureVertices, normals, polygons := [], Some([]), Some([]), [];
      transformation := M4.Identity();
      name := "Unnamed Model";
      originalVertices := [];
      translation, rotation, scale := NO_TRANSLATION, NO_ROTATION, UNIT_SCALE;
    }

    /** new Model(name). */
    constructor Named(name: string)
      ensures vertices == [] && textureVertices == Some([]) && normals == Some([]) && polygons == []
      ensures transformation == M4.Identity() && this.name == name && originalVertices == []
      ensures translation == NO_TRANSLATION && rotation == NO_ROTATION && scale == UNIT_SCALE
    {
      vertices, textureVertices, normals, polygons := [], Some([]), Some([]), [];
      transformation := M4.Identity();
      this.name := name;
      originalVertices := [];
      translation, rotation, scale := NO_TRANSLATION, NO_ROTATION, UNIT_SCALE;
    }

    /** saveOriginalVertices. */
    method SaveOriginalVertices()
      modifies this
      ensures originalVertices == Saved(old(originalVertices), old(vertices))
      ensures vertices == old(vertices) && transformation == old(transformation)
      ensures translation == old(translation) && rotation == old(rotation) && scale == old(scale)
      ensures textureVertices == old(textureVertices) && normals == old(normals) && polygons == old(polygons) && name == old(name)
    {
      if originalVertices == [] && vertices != [] {
        var copy := [];
        for i := 0 to |vertices|
          invariant copy == vertices[..i]
        {
          copy := copy + [V3.Vector3f(vertices[i].x, vertices[i].y, vertices[i].z)];
        }
        originalVertices := copy;
      }
    }

    /** updateVerticesFromOriginal. */
    method UpdateVerticesFromOriginal()
      modifies this
      ensures vertices == (if old(originalVertices) == [] then old(vertices) else TransformAll(transformation, originalVertices))
      ensures originalVertices == old(originalVertices) && transformation == old(transformation)
      ensures translation == old(translation) && rotation == old(rotation) && scale == old(scale)
      ensures textureVertices == old(textureVertices) && normals == old(normals) && polygons == old(polygons) && name == old(name)
    {
      if originalVertices == [] {
        return;
      }
      vertices := [];
      for i := 0 to |originalVertices|
        invariant originalVertices == old(originalVertices) && transformation == old(transformation)
        invariant translation == old(translation) && rotation == old(rotation) && scale == old(scale)
        invariant textureVertices == old(textureVertices) && normals == old(normals) && polygons == old(polygons) && name == old(name)
        invariant vertices == TransformAll(transformation, originalVertices[..i])
      {
        assert originalVertices[..i + 1][..i] == originalVertices[..i];
        vertices := vertices + [M4.Transform(transformation, originalVertices[i])];
      }
      assert originalVertices[..|originalVertices|] == originalVertices;
    }

    /** applyTransformation: nothing without originals; otherwise the matrix
        is rebuilt from the stored fields and the vertices from the originals. */
    method ApplyTransformation()
      modifies this
      ensures old(originalVertices) == [] ==> vertices == old(vertices) && transformation == old(transformation)
      ensures old(originalVertices) != [] ==>
                transformation == Rebuilt(scale, rotation, translation)
                && vertices == TransformAll(transformation, originalVertices)
      ensures originalVertices == old(originalVertices)
      ensures translation == old(translation) && rotation == old(rotation) && scale == old(scale)
      ensures textureVertices == old(textureVertices) && normals == old(normals) && polygons == old(polygons) && name == old(name)
    {
      if originalVertices == [] {
        return;
      }
      var t := new Transformations.Transformation();
      t.ApplyScaling(scale.x, scale.y, scale.z);
      t.ApplyRotation(rotation.x, rotation.y, rotation.z);
      t.ApplyTranslation(translation.x, translation.y, translation.z);
      transformation := t.matrix;
      UpdateVerticesFromOriginal();
    }

    /** setVertices: the list is replaced; it becomes the originals only
        when none are saved yet and it is non-empty. */
    method SetVertices(vs: seq<V3.Vector3f>)
      modifies this
      ensures vertices == vs
      ensures originalVertices == Saved(old(originalVertices), vs)
      ensures transformation == old(transformation)
      ensures translation == old(translation) && rotation == old(rotation) && scale == old(scale)
      ensures textureVertices == old(textureVertices) && normals == old(normals) && polygons == old(polygons) && name == old(name)
    {
      vertices := vs;
      if originalVertices == [] && vertices != [] {
        SaveOriginalVertices();
      }
    }

    method SetTextureVertices(ts: Option<seq<V2.Vector2f>>)
      modifies this
      ensures textureVertices == ts
      ensures vertices == old(vertices) && originalVertices == old(originalVertices) && transformation == old(transformation)
      ensures translation == old(translation) && rotation == old(rotation) && scale == old(scale)
      ensures normals == old(normals) && polygons == old(polygons) && name == old(name)
    {
      textureVertices := ts;
    }

    method SetNormals(ns: Option<seq<V3.Vector3f>>)
      modifies this
      ensures normals == ns
      ensures vertices == old(vertices) && originalVertices == old(originalVertices) && transformation == old(transformation)
      ensures translation == old(translation) && rotation == old(rotation) && scale == old(scale)
      ensures textureVertices == old(textureVertices) && polygons == old(polygons) && name == old(name)
    {
      normals := ns;
    }

    method SetPolygons(ps: seq<Polygon>)
      modifies this
      ensures polygons == ps
      ensures vertices == old(vertices) && originalVertices == old(originalVertices) && transformation == old(transformation)
      ensures translation == old(translation) && rotation == old(rotation) && scale == old(scale)
      ensures textureVertices == old(textureVertices) && normals == old(normals) && name == old(name)
    {
      polygons := ps;
    }

    /** updateVerticesAfterTransformation: the current vertices through the
        matrix, stored with setVertices (so they may become the originals). */
    method UpdateVerticesAfterTransformation()
      modifies this
      ensures vertices == TransformAll(transformation, old(vertices))
      ensures originalVertices == Saved(old(originalVertices), vertices)
      ensures transformation == old(transformation)
      ensures translation == old(translation) && rotation == old(rotation) && scale == old(scale)
      ensures textureVertices == old(textureVertices) && normals == old(normals) && polygons == old(polygons) && name == old(name)
    {
      var transformed := [];
      for i := 0 to |vertices|
        invariant transformed == TransformAll(transformation, vertices[..i])
      {
        assert vertices[..i + 1][..i] == vertices[..i];
        transformed := transformed + [M4.Transform(transformation, vertices[i])];
      }
      assert vertices[..|vertices|] == vertices;
      SetVertices(transformed);
    }

    /** applyTranslation: T·M, then the current vertices again. */
    method ApplyTranslation(tx: real, ty: real, tz: real)
      modifies this
      ensures transformation == M4.Product(M4.Translation(tx, ty, tz), old(transformation))
      ensures vertices == TransformAll(transformation, old(vertices))
      ensures originalVertices == Saved(old(originalVertices), vertices)
      ensures translation == old(translation) && rotation == old(rotation) && scale == old(scale)
      ensures textureVertices == old(textureVertices) && normals == old(normals) && polygons == old(polygons) && name == old(name)
    {
      transformation := M4.Product(M4.Translation(tx, ty, tz), transformation);
      UpdateVerticesAfterTransformation();
    }

    /** applyRotation: M·Rx·Ry·Rz, then the current vertices again. */
    method ApplyRotation(rx: real, ry: real, rz: real)
      modifies this
      ensures transformation == Transformations.AfterRotation(old(transformation), rx, ry, rz)
      ensures vertices == TransformAll(transformation, old(vertices))
      ensures originalVertices == Saved(old(originalVertices), vertices)
      ensures translation == old(translation) && rotation == old(rotation) && scale == old(scale)
      ensures textureVertices == old(textureVertices) && normals == old(normals) && polygons == old(polygons) && name == old(name)
    {
      transformation := Transformations.AfterRotation(transformation, rx, ry, rz);
      UpdateVerticesAfterTransformation();
    }

    /** applyScaling: M·S, then the current vertices again. */
    method ApplyScaling(sx: real, sy: real, sz: real)
      modifies this
      ensures transformation == M4.Product(old(transformation), M4.Scaling(sx, sy, sz))
      ensures vertices == TransformAll(transformation, old(vertices))
      ensures originalVertices == Saved(old(originalVertices), vertices)
      ensures translation == old(translation) && rotation == old(rotation) && scale == old(scale)
      ensures textureVertices == old(textureVertices) && normals == old(normals) && polygons == old(polygons) && name == old(name)
    {
      transformation := M4.Product(transformation, M4.Scaling(sx, sy, sz));
      UpdateVerticesAfterTransformation();
    }

    /** applyAllTransformations: the matrix from reset, applied to the
        current vertices; the stored fields are not updated. */
    method ApplyAllTransformations(t: V3.Vector3f, r: V3.Vector3f, s: V3.Vector3f)
      modifies this
      ensures transformation == Rebuilt(s, r, t)
      ensures vertices == TransformAll(transformation, old(vertices))
      ensures originalVertices == Saved(old(originalVertices), vertices)
      ensures translation == old(translation) && rotation == old(rotation) && scale == old(scale)
      ensures textureVertices == old(textureVertices) && normals == old(normals) && polygons == old(polygons) && name == old(name)
    {
      transformation := Rebuilt(s, r, t);
      UpdateVerticesAfterTransformation();
    }

    /** setTranslation: the field, then applyTransformation. The result
        depends only on the originals and the three fields, so a repeated
        call reproduces the same vertices. */
    method SetTranslation(t: V3.Vector3f)
      modifies this
      ensures translation == t && rotation == old(rotation) && scale == old(scale)
      ensures originalVertices == old(originalVertices)
      ensures old(originalVertices) == [] ==> vertices == old(vertices) && transformation == old(transformation)
      ensures old(originalVertices) != [] ==>
                transformation == Rebuilt(scale, rotation, t) && vertices == TransformAll(transformation, originalVertices)
      ensures textureVertices == old(textureVertices) && normals == old(normals) && polygons == old(polygons) && name == old(name)
    {
      translation := t;
      ApplyTransformation();
    }

    method SetRotation(r: V3.Vector3f)
      modifies this
      ensures rotation == r && translation == old(translation) && scale == old(scale)
      ensures originalVertices == old(originalVertices)
      ensures old(originalVertices) == [] ==> vertices == old(vertices) && transformation == old(transformation)
      ensures old(originalVertices) != [] ==>
                transformation == Rebuilt(scale, r, translation) && vertices == TransformAll(transformation, originalVertices)
      ensures textureVertices == old(textureVertices) && normals == old(normals) && polygons == old(polygons) && name == old(name)
    {
      rotation := r;
      ApplyTransformation();
    }

    method SetScaling(s: V3.Vector3f)
      modifies this
      ensures scale == s && translation == old(translation) && rotation == old(rotation)
      ensures originalVertices == old(originalVertices)
      ensures old(originalVertices) == [] ==> vertices == old(vertices) && transformation == old(transformation)
      ensures old(originalVertices) != [] ==>
                transformation == Rebuilt(s, rotation, translation) && vertices == TransformAll(transformation, originalVertices)
      ensures textureVertices == old(textureVertices) && normals == old(normals) && polygons == old(polygons) && name == old(name)
    {
      scale := s;
      ApplyTransformation();
    }

    method SetAllTransformations(t: V3.Vector3f, r: V3.Vector3f, s: V3.Vector3f)
      modifies this
      ensures translation == t && rotation == r && scale == s
      ensures originalVertices == old(originalVertices)
      ensures old(originalVertices) == [] ==> vertices == old(vertices) && transformation == old(transformation)
      ensures old(originalVertices) != [] ==>
                transformation == Rebuilt(s, r, t) && vertices == TransformAll(transformation, originalVertices)
      ensures textureVertices == old(textureVertices) && normals == old(normals) && polygons == old(polygons) && name == old(name)
    {
      translation, rotation, scale := t, r, s;
      ApplyTransformation();
    }

    /** resetTransformations: the fields back to their initial values, the
        vertices back to a copy of the originals when there are any, and
        the identity matrix. */
    method ResetTransformations()
      modifies this
      ensures translation == NO_TRANSLATION && rotation == NO_ROTATION && scale == UNIT_SCALE
      ensures vertices == (if old(originalVertices) != [] then old(originalVertices) else old(vertices))
      ensures transformation == M4.Identity() && originalVertices == old(originalVertices)
      ensures textureVertices == old(textureVertices) && normals == old(normals) && polygons == old(polygons) && name == old(name)
    {
      translation, rotation, scale := NO_TRANSLATION, NO_ROTATION, UNIT_SCALE;
      if originalVertices != [] {
        var copy := [];
        for i := 0 to |originalVertices|
          invariant copy == originalVertices[..i]
        {
          copy := copy + [V3.Vector3f(originalVertices[i].x, originalVertices[i].y, originalVertices[i].z)];
        }
        assert originalVertices[..|originalVertices|] == originalVertices;
        vertices := copy;
      }
      transformation := M4.Identity();
    }
  }
}
