/** The mesh entities shared by the decoder, the validator, the encoder and
    the editing passes. */
module Mesh {
  import opened Wrappers
  import V2 = Vector2
  import V3 = Vector3

  /** A face: indices into the vertex, texture-vertex and normal lists. The
      texture and normal lists may be null (None); new Polygon() starts with
      three empty lists. */
  datatype Polygon = Polygon(vertexIndices: seq<int>, textureVertexIndices: Option<seq<int>>, normalIndices: Option<seq<int>>)
  {
    /** getTextureVertexIndices() / getNormalIndices() as lists; a null list reads as empty. */
    function Textures(): seq<int> { if textureVertexIndices.Some? then textureVertexIndices.value else [] }
    function Normals(): seq<int> { if normalIndices.Some? then normalIndices.value else [] }
  }

  /** new Polygon(). */
  function EmptyPolygon(): Polygon
  {
    Polygon([], Some([]), Some([]))
  }

  /** A polygon the decoder builds: all three lists present. */
  function FacePolygon(v: seq<int>, t: seq<int>, n: seq<int>): (p: Polygon)
    ensures p.vertexIndices == v && p.Textures() == t && p.Normals() == n
  {
    Polygon(v, Some(t), Some(n))
  }

  /** The model record the OBJ decoder fills: four public lists and a name. */
  datatype ObjModel = ObjModel(
    name: string,
    vertices: seq<V3.Vector3f>,
    textureVertices: seq<V2.Vector2f>,
    normals: seq<V3.Vector3f>,
    polygons: seq<Polygon>)

  /** new Model(): an empty name and four empty lists. */
  function EmptyModel(): ObjModel
  {
    ObjModel("", [], [], [], [])
  }

  /** Every index of the list lies in [0, count). */
  predicate AllInRange(indices: seq<int>, count: int)
  {
    forall i :: 0 <= i < |indices| ==> 0 <= indices[i] < count
  }
}
