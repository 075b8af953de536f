/** The pre-export checklist (ModelValidator.validate): the vertices, then
    the texture vertices, then the normals, then the polygons, stopping at
    the first violation. The model is seen as a snapshot in which every
    list and element may be null and floats may be NaN or infinite. */
module ModelValidator {
  import opened Wrappers
  import opened JavaMath
  import opened JavaText

  datatype NVec2 = NVec2(x: JFloat, y: JFloat)
  datatype NVec3 = NVec3(x: JFloat, y: JFloat, z: JFloat)
  datatype NPolygon = NPolygon(vertexIndices: Option<seq<int>>, textureVertexIndices: Option<seq<int>>, normalIndices: Option<seq<int>>)

  /** A model as the validator and the writer read it through its getters. */
  datatype Snapshot = Snapshot(
    name: Option<string>,
    vertices: Option<seq<Option<NVec3>>>,
    textureVertices: Option<seq<Option<NVec2>>>,
    normals: Option<seq<Option<NVec3>>>,
    polygons: Option<seq<Option<NPolygon>>>)

  /** The first element from index i on that the check rejects. */
  function FirstError<T>(xs: seq<T>, check: (T, nat) -> Option<string>, i: nat): (r: Option<string>)
    requires i <= |xs|
    ensures r.None? <==> forall j :: i <= j < |xs| ==> check(xs[j], j).None?
    ensures r.Some? ==> exists j :: i <= j < |xs| && r == check(xs[j], j) && forall k :: i <= k < j ==> check(xs[k], k).None?
    decreases |xs| - i
  {
    if i == |xs| then None
    else if check(xs[i], i).Some? then check(xs[i], i)
    else FirstError(xs, check, i + 1)
  }

  // ------------------------------------------------------------ floats

  predicate Finite2(v: NVec2) { v.x.Finite? && v.y.Finite? }
  predicate Finite3(v: NVec3) { v.x.Finite? && v.y.Finite? && v.z.Finite? }

  /** validateFloatValues: NaN is looked for before infinity. */
  function FloatError2(v: NVec2, context: string): (r: Option<string>)
    ensures r.None? <==> Finite2(v)
    ensures (v.x.IsNaN() || v.y.IsNaN()) ==> r == Some(context + " contains NaN values")
    ensures r.Some? && !(v.x.IsNaN() || v.y.IsNaN()) ==> r == Some(context + " contains infinite values")
  {
    if v.x.IsNaN() || v.y.IsNaN() then Some(context + " contains NaN values")
    else if v.x.IsInfinite() || v.y.IsInfinite() then Some(context + " contains infinite values")
    else None
  }

  function FloatError3(v: NVec3, context: string): (r: Option<string>)
    ensures r.None? <==> Finite3(v)
    ensures (v.x.IsNaN() || v.y.IsNaN() || v.z.IsNaN()) ==> r == Some(context + " contains NaN values")
    ensures r.Some? && !(v.x.IsNaN() || v.y.IsNaN() || v.z.IsNaN()) ==> r == Some(context + " contains infinite values")
  {
    if v.x.IsNaN() || v.y.IsNaN() || v.z.IsNaN() then Some(context + " contains NaN values")
    else if v.x.IsInfinite() || v.y.IsInfinite() || v.z.IsInfinite() then Some(context + " contains infinite values")
    else None
  }

  function LengthSquared(v: NVec3): real
    requires Finite3(v)
  {
    v.x.value * v.x.value + v.y.value * v.y.value + v.z.value * v.z.value
  }

  predicate NearUnit(v: NVec3)
    requires Finite3(v)
  {
    Abs(LengthSquared(v) - 1.0) <= 0.01
  }

  /** validateNormalLength: |x² + y² + z² − 1| may not exceed 0.01. */
  function NormalLengthError(v: NVec3, index: nat): (r: Option<string>)
    requires Finite3(v)
    ensures r.None? <==> NearUnit(v)
  {
    var ls := LengthSquared(v);
    if Abs(ls - 1.0) > 0.01 then
      Some("Normal at index " + IntToString(index) + " is not normalized (length squared: " + FormatFixed6(ls) + ")")
    else None
  }

  // ------------------------------------------------------------ lists

  function VertexError(v: Option<NVec3>, i: nat): (r: Option<string>)
    ensures r.None? <==> v.Some? && Finite3(v.value)
    ensures v.None? ==> r == Some("Vertex at index " + IntToString(i) + " is null")
  {
    if v.None? then Some("Vertex at index " + IntToString(i) + " is null")
    else FloatError3(v.value, "Vertex " + IntToString(i))
  }

  function TextureError(v: Option<NVec2>, i: nat): (r: Option<string>)
    ensures r.None? <==> v.Some? && Finite2(v.value)
    ensures v.None? ==> r == Some("Texture vertex at index " + IntToString(i) + " is null")
  {
    if v.None? then Some("Texture vertex at index " + IntToString(i) + " is null")
    else FloatError2(v.value, "Texture vertex " + IntToString(i))
  }

  function NormalError(v: Option<NVec3>, i: nat): (r: Option<string>)
    ensures r.None? <==> v.Some? && Finite3(v.value) && NearUnit(v.value)
    ensures v.None? ==> r == Some("Normal at index " + IntToString(i) + " is null")
  {
    if v.None? then Some("Normal at index " + IntToString(i) + " is null")
    else if FloatError3(v.value, "Normal " + IntToString(i)).Some? then FloatError3(v.value, "Normal " + IntToString(i))
    else NormalLengthError(v.value, i)
  }

  /** validateVertices: the list must exist and be non-empty. */
  function VerticesError(vs: Option<seq<Option<NVec3>>>): (r: Option<string>)
    ensures vs.None? ==> r == Some("Model vertices list cannot be null")
    ensures vs == Some([]) ==> r == Some("Model must have at least one vertex")
    ensures r.None? <==> vs.Some? && |vs.value| > 0 && forall i :: 0 <= i < |vs.value| ==> VertexError(vs.value[i], i).None?
  {
    if vs.None? then Some("Model vertices list cannot be null")
    else if |vs.value| == 0 then Some("Model must have at least one vertex")
    else FirstError(vs.value, VertexError, 0)
  }

  /** validateTextureVertices: a null list passes. */
  function TexturesError(ts: Option<seq<Option<NVec2>>>): (r: Option<string>)
    ensures r.None? <==> ts.None? || forall i :: 0 <= i < |ts.value| ==> TextureError(ts.value[i], i).None?
  {
    if ts.None? then None else FirstError(ts.value, TextureError, 0)
  }

  /** validateNormals: a null list passes. */
  function NormalsError(ns: Option<seq<Option<NVec3>>>): (r: Option<string>)
    ensures r.None? <==> ns.None? || forall i :: 0 <= i < |ns.value| ==> NormalError(ns.value[i], i).None?
  {
    if ns.None? then None else FirstError(ns.value, NormalError, 0)
  }

  // ------------------------------------------------------------ polygons

  /** The formatted message of an index outside [0, count). */
  function IndexError(polygonIndex: nat, kind: string, index: int, count: int): string
  {
    "Polygon " + IntToString(polygonIndex) + ": invalid " + kind + " index " + IntToString(index)
      + " (valid: 0\U{2013}" + IntToString(count - 1) + ")"
  }

  function RangeError(indices: seq<int>, polygonIndex: nat, kind: string, count: int): (r: Option<string>)
    ensures r.None? <==> forall i :: 0 <= i < |indices| ==> 0 <= indices[i] < count
  {
    FirstError(indices, (index: int, _: nat) => if index < 0 || index >= count then Some(IndexError(polygonIndex, kind, index, count)) else None, 0)
  }

  /** validatePolygon: non-null, then the vertex indices, then a non-empty
      texture list, then a non-empty normal list. */
  function PolygonError(p: Option<NPolygon>, i: nat, vertexCount: int, textureCount: int, normalCount: int): (r: Option<string>)
    ensures r.None? <==> p.Some? && PolygonOk(p.value, vertexCount, textureCount, normalCount)
  {
    if p.None? then Some("Polygon at index " + IntToString(i) + " is null")
    else
      var vs, ts, ns := p.value.vertexIndices, p.value.textureVertexIndices, p.value.normalIndices;
      if vs.None? then Some("Polygon " + IntToString(i) + " has null vertex indices")
      else if |vs.value| == 0 then Some("Polygon " + IntToString(i) + " has no vertices")
      else if |vs.value| < 3 then Some("Polygon " + IntToString(i) + " has less than 3 vertices")
      else if RangeError(vs.value, i, "vertex", vertexCount).Some? then RangeError(vs.value, i, "vertex", vertexCount)
      else if ts.Some? && |ts.value| > 0 && |ts.value| != |vs.value| then
        Some("Polygon " + IntToString(i) + ": vertex and texture index counts differ (" + IntToString(|vs.value|) + " vs " + IntToString(|ts.value|) + ")")
      else if ts.Some? && |ts.value| > 0 && RangeError(ts.value, i, "texture", textureCount).Some? then RangeError(ts.value, i, "texture", textureCount)
      else if ns.Some? && |ns.value| > 0 && |ns.value| != |vs.value| then
        Some("Polygon " + IntToString(i) + ": vertex and normal index counts differ (" + IntToString(|vs.value|) + " vs " + IntToString(|ns.value|) + ")")
      else if ns.Some? && |ns.value| > 0 then RangeError(ns.value, i, "normal", normalCount)
      else None
  }

  /** validatePolygons: the list must exist and be non-empty; a null texture
      or normal list counts as zero elements. */
  function PolygonsError(m: Snapshot): (r: Option<string>)
    requires m.vertices.Some?
    ensures m.polygons.None? ==> r == Some("Model polygons list cannot be null")
    ensures m.polygons == Some([]) ==> r == Some("Model must have at least one polygon")
    ensures r.None? <==> (m.polygons.Some? && |m.polygons.value| > 0 &&
              forall i :: 0 <= i < |m.polygons.value| ==> PolygonError(m.polygons.value[i], i, |m.vertices.value|, TextureCount(m), NormalCount(m)).None?)
  {
    if m.polygons.None? then Some("Model polygons list cannot be null")
    else if |m.polygons.value| == 0 then Some("Model must have at least one polygon")
    else
      var vc, tc, nc := |m.vertices.value|, TextureCount(m), NormalCount(m);
      FirstError(m.polygons.value, (p: Option<NPolygon>, i: nat) => PolygonError(p, i, vc, tc, nc), 0)
  }

  function TextureCount(m: Snapshot): nat
  {
    if m.textureVertices.Some? then |m.textureVertices.value| else 0
  }

  function NormalCount(m: Snapshot): nat
  {
    if m.normals.Some? then |m.normals.value| else 0
  }

  // ------------------------------------------------------------ validate

  /** validate(model): None when the model passes, else the message of the
      first ObjWriterException. */
  function Validate(model: Option<Snapshot>): (r: Option<string>)
    ensures model.None? ==> r == Some("Model cannot be null")
    ensures model.Some? && VerticesError(model.value.vertices).Some? ==> r == VerticesError(model.value.vertices)
    ensures model.Some? && VerticesError(model.value.vertices).None? && TexturesError(model.value.textureVertices).Some? ==>
              r == TexturesError(model.value.textureVertices)
    ensures model.Some? && VerticesError(model.value.vertices).None? && TexturesError(model.value.textureVertices).None?
            && NormalsError(model.value.normals).Some? ==>
              r == NormalsError(model.value.normals)
    ensures model.Some? && VerticesError(model.value.vertices).None? && TexturesError(model.value.textureVertices).None?
            && NormalsError(model.value.normals).None? ==>
              r == PolygonsError(model.value)
  {
    if model.None? then Some("Model cannot be null")
    else
      var m := model.value;
      if VerticesError(m.vertices).Some? then VerticesError(m.vertices)
      else if TexturesError(m.textureVertices).Some? then TexturesError(m.textureVertices)
      else if NormalsError(m.normals).Some? then NormalsError(m.normals)
      else PolygonsError(m)
  }

  /** What a polygon that passes satisfies. */
  predicate PolygonOk(p: NPolygon, vertexCount: int, textureCount: int, normalCount: int)
  {
    && p.vertexIndices.Some? && |p.vertexIndices.value| >= 3
    && (forall k :: 0 <= k < |p.vertexIndices.value| ==> 0 <= p.vertexIndices.value[k] < vertexCount)
    && (p.textureVertexIndices.Some? && |p.textureVertexIndices.value| > 0 ==>
          && |p.textureVertexIndices.value| == |p.vertexIndices.value|
          && forall k :: 0 <= k < |p.textureVertexIndices.value| ==> 0 <= p.textureVertexIndices.value[k] < textureCount)
    && (p.normalIndices.Some? && |p.normalIndices.value| > 0 ==>
          && |p.normalIndices.value| == |p.vertexIndices.value|
          && forall k :: 0 <= k < |p.normalIndices.value| ==> 0 <= p.normalIndices.value[k] < normalCount)
  }

  /** What a model that passes satisfies, stated without the checklist. */
  predicate Valid(m: Snapshot)
  {
    && m.vertices.Some? && |m.vertices.value| > 0
    && (forall i :: 0 <= i < |m.vertices.value| ==> m.vertices.value[i].Some? && Finite3(m.vertices.value[i].value))
    && (m.textureVertices.Some? ==>
          forall i :: 0 <= i < |m.textureVertices.value| ==> m.textureVertices.value[i].Some? && Finite2(m.textureVertices.value[i].value))
    && (m.normals.Some? ==>
          forall i :: 0 <= i < |m.normals.value| ==>
            m.normals.value[i].Some? && Finite3(m.normals.value[i].value) && NearUnit(m.normals.value[i].value))
    && m.polygons.Some? && |m.polygons.value| > 0
    && (forall i :: 0 <= i < |m.polygons.value| ==>
          m.polygons.value[i].Some? && PolygonOk(m.polygons.value[i].value, |m.vertices.value|, TextureCount(m), NormalCount(m)))
  }

  /** The checklist accepts exactly the valid models. */
  lemma ValidateAcceptsExactlyValid(m: Snapshot)
    ensures Validate(Some(m)).None? <==> Valid(m)
  {
    if Validate(Some(m)).None? {
      assert VerticesError(m.vertices).None?;
      assert TexturesError(m.textureVertices).None?;
      assert NormalsError(m.normals).None?;
      assert PolygonsError(m).None?;
    }
    if Valid(m) {
      assert VerticesError(m.vertices).None?;
      assert TexturesError(m.textureVertices).None?;
      assert NormalsError(m.normals).None?;
      assert PolygonsError(m).None?;
    }
  }

  /** The vertex checks come first: a model without vertices reports that,
      whatever its polygons. */
  lemma NoVerticesReportedFirst(m: Snapshot)
    requires m.vertices == Some([])
    ensures Validate(Some(m)) == Some("Model must have at least one vertex")
  {
  }

  /** A vector holding both NaN and an infinity reports the NaN. */
  lemma NaNBeforeInfinity(context: string)
    ensures FloatError3(NVec3(NaN, PosInf, Finite(0.0)), context) == Some(context + " contains NaN values")
  {
  }
}
