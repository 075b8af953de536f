/** Vertex normals (Normalization.getVertexNormals): each polygon's face
    normal (v0 - v1) x (v0 - v2) is added to the accumulator of every
    vertex index it lists, once per occurrence; non-zero accumulators are
    then normalised. */
module Normalization {
  import opened Mesh
  import opened JavaMath
  import opened Wrappers
  import V3 = Vector3

  /** getTriangleNormale. */
  function TriangleNormal(v0: V3.Vector3f, v1: V3.Vector3f, v2: V3.Vector3f): (n: V3.Vector3f)
    ensures V3.Dot(V3.Subtract(v0, v1), n) == 0.0 && V3.Dot(V3.Subtract(v0, v2), n) == 0.0
  {
    V3.Cross(V3.Subtract(v0, v1), V3.Subtract(v0, v2))
  }

  /** What the loop needs of its input, unchecked by the source: three
      vertex indices or more per polygon, all in range. */
  predicate WellFormed(vertices: seq<V3.Vector3f>, polygons: seq<Polygon>)
  {
    forall k :: 0 <= k < |polygons| ==> |polygons[k].vertexIndices| >= 3 && AllInRange(polygons[k].vertexIndices, |vertices|)
  }

  /** The face normal of a polygon, from its first three indices only. */
  function FaceNormal(vertices: seq<V3.Vector3f>, p: Polygon): V3.Vector3f
    requires |p.vertexIndices| >= 3 && AllInRange(p.vertexIndices, |vertices|)
  {
    var idx := p.vertexIndices;
    TriangleNormal(vertices[idx[0]], vertices[idx[1]], vertices[idx[2]])
  }

  /** Adding n to the accumulator of each listed index, in order. */
  function AddAt(acc: seq<V3.Vector3f>, indices: seq<int>, n: V3.Vector3f): (r: seq<V3.Vector3f>)
    requires AllInRange(indices, |acc|)
    ensures |r| == |acc|
  {
    if |indices| == 0 then acc
    else
      var i := indices[|indices| - 1];
      var front := AddAt(acc, indices[..|indices| - 1], n);
      front[i := V3.Add(front[i], n)]
  }

  /** The accumulators after the polygon loop. */
  function Accumulated(vertices: seq<V3.Vector3f>, polygons: seq<Polygon>): (r: seq<V3.Vector3f>)
    requires WellFormed(vertices, polygons)
    ensures |r| == |vertices|
  {
    if |polygons| == 0 then seq(|vertices|, _ => V3.Zero)
    else
      var front := polygons[..|polygons| - 1];
      var p := polygons[|polygons| - 1];
      AddAt(Accumulated(vertices, front), p.vertexIndices, FaceNormal(vertices, p))
  }

  /** The final loop: a positive-length accumulator is normalised. */
  function Finish(acc: V3.Vector3f): V3.Vector3f
  {
    if V3.Length(acc) > 0.0 then V3.Normalize(acc) else acc
  }

  function VertexNormals(vertices: seq<V3.Vector3f>, polygons: seq<Polygon>): (r: seq<V3.Vector3f>)
    requires WellFormed(vertices, polygons)
    ensures |r| == |vertices|
  {
    var acc := Accumulated(vertices, polygons);
    seq(|acc|, i requires 0 <= i < |acc| => Finish(acc[i]))
  }

  /** getVertexNormals. The source checks nothing: a polygon with fewer
      than three vertex indices, or an index outside the vertex list, makes
      `List.get`/`set` throw IndexOutOfBoundsException, which is the error
      result here. */
  method GetVertexNormals(vertexes: seq<V3.Vector3f>, polygons: seq<Polygon>)
    returns (r: Result<seq<V3.Vector3f>, string>)
    ensures r.Err? <==> !WellFormed(vertexes, polygons)
    ensures r.Err? ==> r.error == "IndexOutOfBoundsException"
    ensures r.Ok? ==> r.value == VertexNormals(vertexes, polygons)
  {
    var normals := [];
    for i := 0 to |vertexes|
      invariant normals == seq(i, _ => V3.Zero)
    {
      normals := normals + [V3.Vector3f(0.0, 0.0, 0.0)];
    }
    for k := 0 to |polygons|
      invariant WellFormed(vertexes, polygons[..k])
      invariant normals == Accumulated(vertexes, polygons[..k])
    {
      var indices := polygons[k].vertexIndices;
      if |indices| < 3 || !AllInRange(indices, |vertexes|) {
        MalformedPolygon(vertexes, polygons, k);
        return Err("IndexOutOfBoundsException");
      }
      AccumulatedSnoc(vertexes, polygons, k);
      var vertex0 := vertexes[indices[0]];
      var vertex1 := vertexes[indices[1]];
      var vertex2 := vertexes[indices[2]];
      var triangleNormale := TriangleNormal(vertex0, vertex1, vertex2);
      ghost var before := normals;
      for j := 0 to |indices|
        invariant normals == AddAt(before, indices[..j], triangleNormale)
      {
        assert indices[..j + 1][..j] == indices[..j];
        var vertexIndex := indices[j];
        normals := normals[vertexIndex := V3.Add(normals[vertexIndex], triangleNormale)];
      }
      assert indices[..|indices|] == indices;
    }
    assert polygons[..|polygons|] == polygons;
    ghost var acc := normals;
    for i := 0 to |normals|
      invariant |normals| == |acc|
      invariant forall j :: 0 <= j < i ==> normals[j] == Finish(acc[j])
      invariant forall j :: i <= j < |normals| ==> normals[j] == acc[j]
    {
      var normal := normals[i];
      if V3.Length(normal) > 0.0 {
        normals := normals[i := V3.Normalize(normal)];
      }
    }
    return Ok(normals);
  }

  /** One polygon that is too short or out of range spoils the whole list. */
  lemma MalformedPolygon(vertices: seq<V3.Vector3f>, polygons: seq<Polygon>, k: nat)
    requires k < |polygons|
    requires |polygons[k].vertexIndices| < 3 || !AllInRange(polygons[k].vertexIndices, |vertices|)
    ensures !WellFormed(vertices, polygons)
  {
  }

  /** One more well-formed polygon adds its face normal to the accumulators. */
  lemma AccumulatedSnoc(vertices: seq<V3.Vector3f>, polygons: seq<Polygon>, k: nat)
    requires k < |polygons| && WellFormed(vertices, polygons[..k])
    requires |polygons[k].vertexIndices| >= 3 && AllInRange(polygons[k].vertexIndices, |vertices|)
    ensures WellFormed(vertices, polygons[..k + 1])
    ensures Accumulated(vertices, polygons[..k + 1])
            == AddAt(Accumulated(vertices, polygons[..k]), polygons[k].vertexIndices, FaceNormal(vertices, polygons[k]))
  {
    var q := polygons[..k + 1];
    assert q[..k] == polygons[..k];
    forall j | 0 <= j < k + 1
      ensures |q[j].vertexIndices| >= 3 && AllInRange(q[j].vertexIndices, |vertices|)
    {
      if j < k {
        assert q[j] == polygons[..k][j];
      }
    }
  }

  /** How often vertex i occurs in a polygon's list. */
  function Occurrences(indices: seq<int>, i: int): nat
  {
    if |indices| == 0 then 0
    else Occurrences(indices[..|indices| - 1], i) + (if indices[|indices| - 1] == i then 1 else 0)
  }

  lemma {:induction false} AddAtValue(acc: seq<V3.Vector3f>, indices: seq<int>, n: V3.Vector3f, i: nat)
    requires AllInRange(indices, |acc|) && i < |acc|
    ensures AddAt(acc, indices, n)[i] == V3.Add(acc[i], V3.Multiply(n, Occurrences(indices, i) as real))
    decreases |indices|
  {
    if |indices| > 0 {
      var front := indices[..|indices| - 1];
      AddAtValue(acc, front, n, i);
      var c := Occurrences(front, i) as real;
      if indices[|indices| - 1] == i {
        MultiplyStep(acc[i], n, c);
      }
    }
  }

  lemma MultiplyStep(a: V3.Vector3f, n: V3.Vector3f, c: real)
    ensures V3.Add(V3.Add(a, V3.Multiply(n, c)), n) == V3.Add(a, V3.Multiply(n, c + 1.0))
  {
    assert n.x * (c + 1.0) == n.x * c + n.x;
    assert n.y * (c + 1.0) == n.y * c + n.y;
    assert n.z * (c + 1.0) == n.z * c + n.z;
  }

  /** The accumulator of vertex i, as an independent sum over the polygons
      of the face normal times the occurrences of i. */
  function Contribution(vertices: seq<V3.Vector3f>, polygons: seq<Polygon>, i: int): V3.Vector3f
    requires WellFormed(vertices, polygons)
  {
    if |polygons| == 0 then V3.Zero
    else
      var p := polygons[|polygons| - 1];
      V3.Add(Contribution(vertices, polygons[..|polygons| - 1], i),
             V3.Multiply(FaceNormal(vertices, p), Occurrences(p.vertexIndices, i) as real))
  }

  /** Each face normal is added to a vertex's accumulator once per
      occurrence of the vertex in the face. */
  lemma {:induction false} AccumulatedIsContribution(vertices: seq<V3.Vector3f>, polygons: seq<Polygon>, i: nat)
    requires WellFormed(vertices, polygons) && i < |vertices|
    ensures Accumulated(vertices, polygons)[i] == Contribution(vertices, polygons, i)
    decreases |polygons|
  {
    if |polygons| > 0 {
      var front := polygons[..|polygons| - 1];
      var p := polygons[|polygons| - 1];
      AccumulatedIsContribution(vertices, front, i);
      AddAtValue(Accumulated(vertices, front), p.vertexIndices, FaceNormal(vertices, p), i);
    }
  }

  predicate Unreferenced(polygons: seq<Polygon>, i: int)
  {
    forall k, j :: 0 <= k < |polygons| && 0 <= j < |polygons[k].vertexIndices| ==> polygons[k].vertexIndices[j] != i
  }

  lemma {:induction false} NoOccurrences(indices: seq<int>, i: int)
    requires forall j :: 0 <= j < |indices| ==> indices[j] != i
    ensures Occurrences(indices, i) == 0
    decreases |indices|
  {
    if |indices| > 0 {
      NoOccurrences(indices[..|indices| - 1], i);
    }
  }

  lemma {:induction false} UnreferencedContributesNothing(vertices: seq<V3.Vector3f>, polygons: seq<Polygon>, i: int)
    requires WellFormed(vertices, polygons) && Unreferenced(polygons, i)
    ensures Contribution(vertices, polygons, i) == V3.Zero
    decreases |polygons|
  {
    if |polygons| > 0 {
      var p := polygons[|polygons| - 1];
      UnreferencedContributesNothing(vertices, polygons[..|polygons| - 1], i);
      NoOccurrences(p.vertexIndices, i);
    }
  }

  /** A vertex no polygon references ends as the zero vector. */
  lemma UnreferencedVertexIsZero(vertices: seq<V3.Vector3f>, polygons: seq<Polygon>, i: nat)
    requires WellFormed(vertices, polygons) && i < |vertices| && Unreferenced(polygons, i)
    ensures VertexNormals(vertices, polygons)[i] == V3.Zero
  {
    AccumulatedIsContribution(vertices, polygons, i);
    UnreferencedContributesNothing(vertices, polygons, i);
    VertexNormalAt(vertices, polygons, i);
    FinishZero();
  }

  lemma VertexNormalAt(vertices: seq<V3.Vector3f>, polygons: seq<Polygon>, i: nat)
    requires WellFormed(vertices, polygons) && i < |vertices|
    ensures VertexNormals(vertices, polygons)[i] == Finish(Accumulated(vertices, polygons)[i])
  {
  }

  /** The zero vector stays zero whether or not the platform square root
      of 0 is positive. */
  lemma FinishZero()
    ensures Finish(V3.Zero) == V3.Zero
  {
    var z := V3.Zero;
    var len := V3.Length(z);
    if len >= V3.EPSILON {
      assert 0.0 / len == 0.0;
      assert V3.Divide(z, len) == Ok(z);
    }
  }

  /** Every normal is the zero vector or the normalised accumulator: with
      a zero-length accumulator the result is that accumulator, otherwise
      the result times the length gives the accumulator back. */
  lemma NormalOfAccumulator(vertices: seq<V3.Vector3f>, polygons: seq<Polygon>, i: nat)
    requires WellFormed(vertices, polygons) && i < |vertices|
    ensures var acc := Accumulated(vertices, polygons)[i]; var r := VertexNormals(vertices, polygons)[i];
            && (V3.Length(acc) <= 0.0 ==> r == acc)
            && (V3.Length(acc) >= V3.EPSILON ==> V3.Multiply(r, V3.Length(acc)) == acc)
            && (0.0 < V3.Length(acc) < V3.EPSILON ==> r == V3.Zero)
  {
  }
}
