/** Fan triangulation (Triangulation.triangulate): a polygon v0 .. v(n-1)
    becomes the triangles (v0, vi, v(i+1)) for i = 1 .. n-2; polygons with
    fewer than three vertex indices are dropped. */
module Triangulation {
  import opened Wrappers
  import opened Mesh

  /** A new Polygon() whose vertex indices are set: the texture and normal
      lists stay the empty lists of the constructor. */
  function Triangle(a: int, b: int, c: int): (t: Polygon)
    ensures t.vertexIndices == [a, b, c] && t.textureVertexIndices == Some([]) && t.normalIndices == Some([])
  {
    EmptyPolygon().(vertexIndices := [a, b, c])
  }

  /** The triangles of the fan over vs, in increasing i. */
  function FanOf(vs: seq<int>): (r: seq<Polygon>)
    ensures |r| == if |vs| < 3 then 0 else |vs| - 2
  {
    if |vs| < 3 then [] else FanOf(vs[..|vs| - 1]) + [Triangle(vs[0], vs[|vs| - 2], vs[|vs| - 1])]
  }

  function Fan(p: Polygon): seq<Polygon>
  {
    FanOf(p.vertexIndices)
  }

  /** The triangles of all polygons, in polygon order. */
  function FanAll(ps: seq<Polygon>): seq<Polygon>
  {
    if |ps| == 0 then [] else FanAll(ps[..|ps| - 1]) + Fan(ps[|ps| - 1])
  }

  /** The number of triangles an n-gon contributes: n - 2, none below 3. */
  function TriangleCount(ps: seq<Polygon>): nat
  {
    if |ps| == 0 then 0
    else TriangleCount(ps[..|ps| - 1]) + (var n := |ps[|ps| - 1].vertexIndices|; if n < 3 then 0 else n - 2)
  }

  method Triangulate(polygons: seq<Polygon>) returns (result: seq<Polygon>)
    ensures result == FanAll(polygons)
  {
    result := [];
    for k := 0 to |polygons|
      invariant result == FanAll(polygons[..k])
    {
      assert polygons[..k + 1][..k] == polygons[..k];
      var vertices := polygons[k].vertexIndices;
      if |vertices| < 3 {
        continue;
      }
      ghost var before := result;
      assert vertices[..2][..2 - 1] == vertices[..1];
      for i := 1 to |vertices| - 1
        invariant result == before + FanOf(vertices[..i + 1])
      {
        assert vertices[..i + 2][..i + 1] == vertices[..i + 1];
        result := result + [Triangle(vertices[0], vertices[i], vertices[i + 1])];
      }
      assert vertices[..|vertices|] == vertices;
    }
    assert polygons[..|polygons|] == polygons;
  }

  /** Each polygon with n >= 3 vertex indices yields n - 2 triangles. */
  lemma {:induction false} FanAllLength(ps: seq<Polygon>)
    ensures |FanAll(ps)| == TriangleCount(ps)
    decreases |ps|
  {
    if |ps| > 0 {
      FanAllLength(ps[..|ps| - 1]);
    }
  }

  /** The output follows the input order: triangulating a concatenation
      concatenates the triangulations. */
  lemma {:induction false} FanAllAppend(a: seq<Polygon>, b: seq<Polygon>)
    ensures FanAll(a + b) == FanAll(a) + FanAll(b)
    decreases |b|
  {
    if |b| == 0 {
      assert a + b == a;
    } else {
      var init, last := b[..|b| - 1], b[|b| - 1];
      assert (a + b)[..|a + b| - 1] == a + init;
      assert (a + b)[|a + b| - 1] == last;
      FanAllAppend(a, init);
      calc {
        FanAll(a + b);
        FanAll(a + init) + Fan(last);
        (FanAll(a) + FanAll(init)) + Fan(last);
        FanAll(a) + (FanAll(init) + Fan(last));
        FanAll(a) + FanAll(b);
      }
    }
  }

  /** Every output triangle has three vertex indices taken from its source
      polygon, so in-range input gives in-range output, and empty texture
      and normal lists. */
  lemma {:induction false} FanAllInRange(ps: seq<Polygon>, count: int)
    requires forall k :: 0 <= k < |ps| ==> AllInRange(ps[k].vertexIndices, count)
    ensures forall t :: t in FanAll(ps) ==>
              |t.vertexIndices| == 3 && AllInRange(t.vertexIndices, count)
              && t.textureVertexIndices == Some([]) && t.normalIndices == Some([])
    decreases |ps|
  {
    if |ps| > 0 {
      FanAllInRange(ps[..|ps| - 1], count);
      var p := ps[|ps| - 1];
      assert AllInRange(p.vertexIndices, count);
      FanOfInRange(p.vertexIndices, count);
    }
  }

  lemma {:induction false} FanOfInRange(vs: seq<int>, count: int)
    requires AllInRange(vs, count)
    ensures forall t :: t in FanOf(vs) ==>
              |t.vertexIndices| == 3 && AllInRange(t.vertexIndices, count)
              && t.textureVertexIndices == Some([]) && t.normalIndices == Some([])
    decreases |vs|
  {
    if |vs| >= 3 {
      FanOfInRange(vs[..|vs| - 1], count);
    }
  }

  /** The i-th triangle of an n-gon, i = 1 .. n-2, is (v0, vi, v(i+1)). */
  lemma {:induction false} FanOfTriangle(vs: seq<int>, i: nat)
    requires 1 <= i <= |vs| - 2
    ensures FanOf(vs)[i - 1] == Triangle(vs[0], vs[i], vs[i + 1])
    decreases |vs|
  {
    if i < |vs| - 2 {
      FanOfTriangle(vs[..|vs| - 1], i);
    }
  }

  /** A polygon with fewer than three vertex indices contributes nothing. */
  lemma DegenerateDropped(ps: seq<Polygon>, p: Polygon)
    requires |p.vertexIndices| < 3
    ensures FanAll(ps + [p]) == FanAll(ps)
  {
    assert (ps + [p])[..|ps|] == ps;
  }

  /** A quadrilateral a b c d becomes (a, b, c) and (a, c, d). */
  lemma QuadFan(a: int, b: int, c: int, d: int)
    ensures FanAll([Polygon([a, b, c, d], None, None)]) == [Triangle(a, b, c), Triangle(a, c, d)]
  {
    var p := Polygon([a, b, c, d], None, None);
    assert [p][..0] == [];
    assert [a, b, c, d][..3] == [a, b, c];
    assert [a, b, c][..2] == [a, b];
    assert FanOf([a, b, c]) == [Triangle(a, b, c)];
    assert Fan(p) == [Triangle(a, b, c), Triangle(a, c, d)];
  }
}
