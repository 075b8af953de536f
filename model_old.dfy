/** The older mesh class (ModelOld): four lists, a transformation and a
    name. Its apply* methods transform the current vertices in place; copy()
    and applyTransformation(flag) build a new Model. The transformation
    class it uses is represented, like Model's, by its matrix. */
module ModelsOld {
  import opened Wrappers
  import opened Linear
  import opened Mesh
  import V2 = Vector2
  import V3 = Vector3
  import M4 = Matrix4
  import M3 = Matrix3
  import Models
  import Transformations

  /** `new ArrayList<>(null)` and a for-each over null both throw. */
  const NULL_LIST := "NullPointerException"

  /** Every normal through the normal matrix, count and order kept. */
  function NormalsThrough(nm: Mat3, ns: seq<V3.Vector3f>): (r: seq<V3.Vector3f>)
    ensures |r| == |ns|
    ensures forall i :: 0 <= i < |ns| ==> r[i] == M3.Transform(nm, ns[i])
  {
    if |ns| == 0 then [] else NormalsThrough(nm, ns[..|ns| - 1]) + [M3.Transform(nm, ns[|ns| - 1])]
  }

  /** The deep copy copy() makes of one polygon: a fresh Polygon starts with
      empty lists, and a null texture or normal list is not copied over it. */
  function CopyPolygon(p: Polygon): (q: Polygon)
  {
    var blank := EmptyPolygon();
    Polygon(p.vertexIndices,
            if p.textureVertexIndices.Some? then p.textureVertexIndices else blank.textureVertexIndices,
            if p.normalIndices.Some? then p.normalIndices else blank.normalIndices)
  }

  /** A copied polygon has the same indices and no null list: a null list
      becomes an empty one, so a polygon without null lists copies to itself. */
  lemma CopyPolygonProperties(p: Polygon)
    ensures CopyPolygon(p).vertexIndices == p.vertexIndices
    ensures CopyPolygon(p).Textures() == p.Textures() && CopyPolygon(p).Normals() == p.Normals()
    ensures CopyPolygon(p).textureVertexIndices.Some? && CopyPolygon(p).normalIndices.Some?
    ensures p.textureVertexIndices.Some? && p.normalIndices.Some? ==> CopyPolygon(p) == p
    ensures CopyPolygon(CopyPolygon(p)) == CopyPolygon(p)
  {
  }

  function CopyPolygons(ps: seq<Polygon>): (r: seq<Polygon>)
    ensures |r| == |ps|
    ensures forall i :: 0 <= i < |ps| ==> r[i] == CopyPolygon(ps[i])
  {
    if |ps| == 0 then [] else CopyPolygons(ps[..|ps| - 1]) + [CopyPolygon(ps[|ps| - 1])]
  }

  /** A list that copy() reads only when it is not null: null copies as empty. */
  function OrEmpty<T>(xs: Option<seq<T>>): seq<T>
  {
    if xs.Some? then xs.value else []
  }

  class ModelOld {
    var vertices: seq<V3.Vector3f>
    var textureVertices: Option<seq<V2.Vector2f>>
    var normals: Option<seq<V3.Vector3f>>
    var polygons: seq<Polygon>
    var transformation: Mat4
    var name: string

    /** new ModelOld(): "Unnamed Model", empty lists and the identity. */
    constructor()
      ensures vertices == [] && textureVertices == Some([]) && normals == Some([]) && polygons == []
      ensures transformation == M4.Identity() && name == "Unnamed Model"
    {
      vertices, textureVertices, normals, polygons := [], Some([]), Some([]), [];
      transformation := M4.Identity();
      name := "Unnamed Model";
    }

    /** new ModelOld(name). */
    constructor Named(name: string)
      ensures vertices == [] && textureVertices == Some([]) && normals == Some([]) && polygons == []
      ensures transformation == M4.Identity() && this.name == name
    {
      vertices, textureVertices, normals, polygons := [], Some([]), Some([]), [];
      transformation := M4.Identity();
      this.name := name;
    }

    /** applyTransformation(includeInExport): the flag guards an empty block,
        so a new Model named name + " (transformed)" is always built, with the
        vertices through the matrix, the texture list copied, the normals
        through the normal matrix and the same polygon list. A null texture
        or normal list, or a singular normal matrix met by a normal, throws. */
    method ApplyTransformation(includeInExport: bool) returns (r: Result<Models.Model, string>)
      ensures r.Err? <==> textureVertices.None? || normals.None?
                          || (normals.value != [] && M3.NormalMatrix(transformation).Err?)
      ensures r.Ok? ==> fresh(r.value)
      ensures r.Ok? ==> r.value.name == name + " (transformed)"
                        && r.value.vertices == Models.TransformAll(transformation, vertices)
                        && r.value.textureVertices == textureVertices
                        && r.value.polygons == polygons
                        && r.value.originalVertices == []
                        && r.value.transformation == M4.Identity()
      ensures r.Ok? && normals.value != [] ==>
                r.value.normals == Some(NormalsThrough(M3.NormalMatrix(transformation).value, normals.value))
      ensures r.Ok? && normals.value == [] ==> r.value.normals == Some([])
    {
      var vs := TransformEach(transformation, vertices);
      if textureVertices.None? || normals.None? {
        return Err(NULL_LIST);
      }
      var ns := [];
      if normals.value != [] {
        match M3.NormalMatrix(transformation)
        case Err(e) =>
          return Err(e);
        case Ok(nm) =>
          ns := NormalEach(nm, normals.value);
      }
      var transformed := new Models.Model.Named(name + " (transformed)");
      transformed.vertices := vs;
      transformed.SetTextureVertices(textureVertices);
      transformed.SetNormals(Some(ns));
      transformed.SetPolygons(polygons);
      r := Ok(transformed);
    }

    /** updateVerticesAfterTransformation: the current vertices through the
        matrix, stored with the plain setter. */
    method UpdateVerticesAfterTransformation()
      modifies this
      ensures vertices == Models.TransformAll(transformation, old(vertices))
      ensures transformation == old(transformation) && name == old(name)
      ensures textureVertices == old(textureVertices) && normals == old(normals) && polygons == old(polygons)
    {
      var transformed := TransformEach(transformation, vertices);
      vertices := transformed;
    }

    /** applyTranslation: T·M, then the current vertices again. */
    method ApplyTranslation(tx: real, ty: real, tz: real)
      modifies this
      ensures transformation == M4.Product(M4.Translation(tx, ty, tz), old(transformation))
      ensures vertices == Models.TransformAll(transformation, old(vertices))
      ensures textureVertices == old(textureVertices) && normals == old(normals) && polygons == old(polygons) && name == old(name)
    {
      transformation := M4.Mul(M4.Translation(tx, ty, tz), transformation);
      UpdateVerticesAfterTransformation();
    }

    /** applyRotation: M·Rx·Ry·Rz, then the current vertices again. */
    method ApplyRotation(rx: real, ry: real, rz: real)
      modifies this
      ensures transformation == Transformations.AfterRotation(old(transformation), rx, ry, rz)
      ensures vertices == Models.TransformAll(transformation, old(vertices))
      ensures textureVertices == old(textureVertices) && normals == old(normals) && polygons == old(polygons) && name == old(name)
    {
      transformation := Transformations.AfterRotation(transformation, rx, ry, rz);
      UpdateVerticesAfterTransformation();
    }

    /** applyScaling: M·S, then the current vertices again. */
    method ApplyScaling(sx: real, sy: real, sz: real)
      modifies this
      ensures transformation == M4.Product(old(transformation), M4.Scaling(sx, sy, sz))
      ensures vertices == Models.TransformAll(transformation, old(vertices))
      ensures textureVertices == old(textureVertices) && normals == old(normals) && polygons == old(polygons) && name == old(name)
    {
      transformation := M4.Mul(transformation, M4.Scaling(sx, sy, sz));
      UpdateVerticesAfterTransformation();
    }

    /** applyAllTransformations: reset, scale, rotate, translate, then the
        current vertices again. */
    method ApplyAllTransformations(t: V3.Vector3f, r: V3.Vector3f, s: V3.Vector3f)
      modifies this
      ensures transformation == Models.Rebuilt(s, r, t)
      ensures vertices == Models.TransformAll(transformation, old(vertices))
      ensures textureVertices == old(textureVertices) && normals == old(normals) && polygons == old(polygons) && name == old(name)
    {
      var tr := new Transformations.Transformation();
      tr.ApplyScaling(s.x, s.y, s.z);
      tr.ApplyRotation(r.x, r.y, r.z);
      tr.ApplyTranslation(t.x, t.y, t.z);
      transformation := tr.matrix;
      UpdateVerticesAfterTransformation();
    }

    /** resetTransformations: the identity, re-applied, which leaves every
        vertex where it was. */
    method ResetTransformations()
      modifies this
      ensures transformation == M4.Identity()
      ensures vertices == old(vertices)
      ensures textureVertices == old(textureVertices) && normals == old(normals) && polygons == old(polygons) && name == old(name)
    {
      transformation := M4.Identity();
      UpdateVerticesAfterTransformation();
      TransformAllIdentity(old(vertices));
    }

    /** copy(): a new Model with the same name and equal vertex, texture and
        normal values (a null list copies as empty) and a deep copy of every
        polygon; nothing is saved as original vertices. */
    method Copy() returns (c: Models.Model)
      ensures fresh(c)
      ensures c.name == name && c.vertices == vertices
      ensures c.textureVertices == Some(OrEmpty(textureVertices)) && c.normals == Some(OrEmpty(normals))
      ensures c.polygons == CopyPolygons(polygons)
      ensures c.originalVertices == [] && c.transformation == M4.Identity()
    {
      c := new Models.Model.Named(name);
      var vs := [];
      for i := 0 to |vertices|
        invariant vs == vertices[..i]
      {
        vs := vs + [V3.Vector3f(vertices[i].x, vertices[i].y, vertices[i].z)];
      }
      assert vs == vertices;
      c.vertices := vs;
      if textureVertices.Some? {
        var ts := [];
        for i := 0 to |textureVertices.value|
          invariant ts == textureVertices.value[..i]
        {
          ts := ts + [V2.Vector2f(textureVertices.value[i].x, textureVertices.value[i].y)];
        }
        assert ts == textureVertices.value;
        c.textureVertices := Some(ts);
      }
      if normals.Some? {
        var ns := [];
        for i := 0 to |normals.value|
          invariant ns == normals.value[..i]
        {
          ns := ns + [V3.Vector3f(normals.value[i].x, normals.value[i].y, normals.value[i].z)];
        }
        assert ns == normals.value;
        c.normals := Some(ns);
      }
      var ps := [];
      for i := 0 to |polygons|
        invariant ps == CopyPolygons(polygons[..i])
      {
        assert polygons[..i + 1][..i] == polygons[..i];
        var poly := polygons[i];
        var polyCopy := EmptyPolygon();
        polyCopy := polyCopy.(vertexIndices := poly.vertexIndices);
        if poly.textureVertexIndices.Some? {
          polyCopy := polyCopy.(textureVertexIndices := poly.textureVertexIndices);
        }
        if poly.normalIndices.Some? {
          polyCopy := polyCopy.(normalIndices := poly.normalIndices);
        }
        ps := ps + [polyCopy];
      }
      assert polygons[..|polygons|] == polygons;
      c.polygons := ps;
    }
  }

  /** The for-each loop of updateVerticesAfterTransformation and
      applyTransformation over the vertices. */
  method TransformEach(m: Mat4, vs: seq<V3.Vector3f>) returns (r: seq<V3.Vector3f>)
    ensures r == Models.TransformAll(m, vs)
  {
    r := [];
    for i := 0 to |vs|
      invariant r == Models.TransformAll(m, vs[..i])
    {
      assert vs[..i + 1][..i] == vs[..i];
      var v := M4.MulVector(m, vs[i]);
      r := r + [v];
    }
    assert vs[..|vs|] == vs;
  }

  /** The for-each loop of applyTransformation over the normals, once the
      normal matrix exists. */
  method NormalEach(nm: Mat3, ns: seq<V3.Vector3f>) returns (r: seq<V3.Vector3f>)
    ensures r == NormalsThrough(nm, ns)
  {
    r := [];
    for i := 0 to |ns|
      invariant r == NormalsThrough(nm, ns[..i])
    {
      assert ns[..i + 1][..i] == ns[..i];
      var n := M3.MulVector(nm, ns[i]);
      r := r + [n];
    }
    assert ns[..|ns|] == ns;
  }

  /** Every vertex through the identity is itself. */
  lemma {:induction false} TransformAllIdentity(vs: seq<V3.Vector3f>)
    ensures Models.TransformAll(M4.Identity(), vs) == vs
  {
    forall i | 0 <= i < |vs|
      ensures Models.TransformAll(M4.Identity(), vs)[i] == vs[i]
    {
      M4.TransformIdentity(vs[i]);
    }
  }

  /** A copy's polygons keep every vertex index list and have no null list. */
  lemma CopyPolygonsKeepIndices(ps: seq<Polygon>)
    ensures |CopyPolygons(ps)| == |ps|
    ensures forall i :: 0 <= i < |ps| ==>
              CopyPolygons(ps)[i].vertexIndices == ps[i].vertexIndices
              && CopyPolygons(ps)[i].Textures() == ps[i].Textures()
              && CopyPolygons(ps)[i].Normals() == ps[i].Normals()
              && CopyPolygons(ps)[i].textureVertexIndices.Some? && CopyPolygons(ps)[i].normalIndices.Some?
  {
    forall i | 0 <= i < |ps|
      ensures CopyPolygons(ps)[i] == CopyPolygon(ps[i])
    {
    }
    forall i | 0 <= i < |ps|
      ensures CopyPolygon(ps[i]).vertexIndices == ps[i].vertexIndices
    {
      CopyPolygonProperties(ps[i]);
    }
  }
}
