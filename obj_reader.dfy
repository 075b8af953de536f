/** The Wavefront OBJ decoder (ObjReader): lines are dispatched on their
    first token; v, vt and vn append to their lists and f appends a polygon
    whose indices resolve against the counts read so far; a structural
    validation runs after the last line. */
module ObjReader {
  import opened Wrappers
  import opened JavaText
  import opened Mesh
  import JavaMath
  import V2 = Vector2
  import V3 = Vector3

  /** ObjReaderException(message, line). */
  datatype ObjError = ObjError(line: int, message: string)

  /** The exception's message text. */
  function Render(e: ObjError): (s: string)
    ensures StartsWith(s, "Error parsing OBJ file on line: ")
    ensures |s| >= |e.message| && s[|s| - |e.message|..] == e.message
  {
    "Error parsing OBJ file on line: " + IntToString(e.line) + ". " + e.message
  }

  // ------------------------------------------------------------ indices

  /** parseIndex: a positive k means k - 1, a negative k means arrSize + k;
      the result must lie in [0, arrSize). */
  function ParseIndex(indexStr: string, arrSize: nat, lineInd: int): (r: Result<int, ObjError>)
    ensures r.Ok? ==> 0 <= r.value < arrSize
    ensures r.Err? ==> r.error.line == lineInd
    ensures ParseInt(indexStr).None? ==> r == Err(ObjError(lineInd, "Failed to parse int value."))
    ensures ParseInt(indexStr) == Some(0) ==> r == Err(ObjError(lineInd, "Incorrect index."))
    ensures ParseInt(indexStr).Some? && ParseInt(indexStr).value > 0 ==>
              (r.Ok? <==> ParseInt(indexStr).value <= arrSize)
              && (r.Ok? ==> r.value == ParseInt(indexStr).value - 1)
              && (r.Err? ==> r.error.message == "Invalid index.")
    ensures ParseInt(indexStr).Some? && ParseInt(indexStr).value < 0 ==>
              (r.Ok? <==> arrSize + ParseInt(indexStr).value >= 0)
              && (r.Ok? ==> r.value == arrSize + ParseInt(indexStr).value)
              && (r.Err? ==> r.error.message == "Incorrect index.")
  {
    match ParseInt(indexStr)
    case None => Err(ObjError(lineInd, "Failed to parse int value."))
    case Some(k) =>
      if k < 0 && arrSize + k < 0 then Err(ObjError(lineInd, "Incorrect index."))
      else
        var index := if k < 0 then arrSize + k else k - 1;
        if index >= arrSize then Err(ObjError(lineInd, "Invalid index."))
        else if index < 0 then Err(ObjError(lineInd, "Incorrect index."))
        else Ok(index)
  }

  /** The decimal text of a 1-based index k resolves to k - 1, and the text
      of -k to arrSize - k, whenever 1 <= k <= arrSize. */
  lemma ParseIndexOfText(k: int, arrSize: nat, lineInd: int)
    requires 1 <= k <= arrSize <= INT_MAX
    ensures ParseIndex(IntToString(k), arrSize, lineInd) == Ok(k - 1)
    ensures ParseIndex(IntToString(-k), arrSize, lineInd) == Ok(arrSize - k)
  {
    ParseIntToString(k);
    ParseIntToString(-k);
  }

  // ------------------------------------------------------------ v, vt, vn

  /** Float.parseFloat of the first `count` words, in order; a missing word
      is an IndexOutOfBoundsException, reported as `tooFew`. */
  function ParseFloats(words: seq<string>, count: nat, lineInd: int, tooFew: string): (r: Result<seq<real>, ObjError>)
    requires tooFew != "Failed to parse float value."
    ensures r.Ok? <==> count <= |words| && forall i :: 0 <= i < count ==> JavaMath.ParseFloat(words[i]).Some?
    ensures r.Ok? ==> |r.value| == count && forall i :: 0 <= i < count ==> JavaMath.ParseFloat(words[i]) == Some(r.value[i])
    ensures r.Err? ==> r.error.line == lineInd
    ensures r.Err? ==> (r.error.message == tooFew <==>
                         |words| < count && forall i :: 0 <= i < |words| ==> JavaMath.ParseFloat(words[i]).Some?)
    ensures r.Err? && r.error.message != tooFew ==> r.error.message == "Failed to parse float value."
    decreases count
  {
    if count == 0 then Ok([])
    else if |words| == 0 then Err(ObjError(lineInd, tooFew))
    else match JavaMath.ParseFloat(words[0])
      case None => Err(ObjError(lineInd, "Failed to parse float value."))
      case Some(x) =>
        match ParseFloats(words[1..], count - 1, lineInd, tooFew)
        case Err(e) => Err(e)
        case Ok(rest) => Ok([x] + rest)
  }

  /** parseVertex: more than three words is an error before any is parsed. */
  function ParseVertex(words: seq<string>, lineInd: int): (r: Result<V3.Vector3f, ObjError>)
    ensures |words| > 3 ==> r == Err(ObjError(lineInd, "Too many vertex arguments."))
    ensures r.Ok? <==> |words| == 3 && forall i :: 0 <= i < 3 ==> JavaMath.ParseFloat(words[i]).Some?
    ensures r.Ok? ==> (JavaMath.ParseFloat(words[0]) == Some(r.value.x)
                       && JavaMath.ParseFloat(words[1]) == Some(r.value.y)
                       && JavaMath.ParseFloat(words[2]) == Some(r.value.z))
    ensures r.Err? ==> r.error.line == lineInd
    ensures |words| < 3 && (forall i :: 0 <= i < |words| ==> JavaMath.ParseFloat(words[i]).Some?) ==>
              r == Err(ObjError(lineInd, "Too few vertex arguments."))
  {
    if |words| > 3 then Err(ObjError(lineInd, "Too many vertex arguments."))
    else match ParseFloats(words, 3, lineInd, "Too few vertex arguments.")
      case Err(e) => Err(e)
      case Ok(c) => Ok(V3.Vector3f(c[0], c[1], c[2]))
  }

  /** parseTextureVertex: the first two words; further words are ignored. */
  function ParseTextureVertex(words: seq<string>, lineInd: int): (r: Result<V2.Vector2f, ObjError>)
    ensures r.Ok? <==> |words| >= 2 && forall i :: 0 <= i < 2 ==> JavaMath.ParseFloat(words[i]).Some?
    ensures r.Ok? ==> JavaMath.ParseFloat(words[0]) == Some(r.value.x) && JavaMath.ParseFloat(words[1]) == Some(r.value.y)
    ensures r.Err? ==> r.error.line == lineInd
    ensures |words| < 2 && (forall i :: 0 <= i < |words| ==> JavaMath.ParseFloat(words[i]).Some?) ==>
              r == Err(ObjError(lineInd, "Too few texture vertex arguments."))
  {
    match ParseFloats(words, 2, lineInd, "Too few texture vertex arguments.")
    case Err(e) => Err(e)
    case Ok(c) => Ok(V2.Vector2f(c[0], c[1]))
  }

  /** parseNormal: the first three words; further words are ignored. */
  function ParseNormal(words: seq<string>, lineInd: int): (r: Result<V3.Vector3f, ObjError>)
    ensures r.Ok? <==> |words| >= 3 && forall i :: 0 <= i < 3 ==> JavaMath.ParseFloat(words[i]).Some?
    ensures r.Ok? ==> (JavaMath.ParseFloat(words[0]) == Some(r.value.x)
                       && JavaMath.ParseFloat(words[1]) == Some(r.value.y)
                       && JavaMath.ParseFloat(words[2]) == Some(r.value.z))
    ensures r.Err? ==> r.error.line == lineInd
    ensures |words| < 3 && (forall i :: 0 <= i < |words| ==> JavaMath.ParseFloat(words[i]).Some?) ==>
              r == Err(ObjError(lineInd, "Too few normal arguments."))
  {
    match ParseFloats(words, 3, lineInd, "Too few normal arguments.")
    case Err(e) => Err(e)
    case Ok(c) => Ok(V3.Vector3f(c[0], c[1], c[2]))
  }

  // ------------------------------------------------------------ faces

  /** The three index lists parseFace hands to parseFaceWord. */
  datatype FaceLists = FaceLists(v: seq<int>, t: seq<int>, n: seq<int>)

  /** The counts of v, vt and vn read so far. */
  datatype Counts = Counts(vertices: nat, textures: nat, normals: nat)

  /** The lists stay within the counts. */
  predicate ListsInRange(acc: FaceLists, c: Counts)
  {
    AllInRange(acc.v, c.vertices) && AllInRange(acc.t, c.textures) && AllInRange(acc.n, c.normals)
  }

  /** parseFaceWord: v, v/t, v/t/n or v//n, appended to the caller's lists. */
  function ParseFaceWord(word: string, acc: FaceLists, lineInd: int, c: Counts): (r: Result<FaceLists, ObjError>)
    ensures var parts := SplitOn(word, '/');
            && (|parts| == 0 || |parts| > 3 ==> r == Err(ObjError(lineInd, "Invalid element size.")))
            && (r.Ok? && |parts| == 1 ==> ParseIndex(parts[0], c.vertices, lineInd).Ok?
                                          && r.value.v == acc.v + [ParseIndex(parts[0], c.vertices, lineInd).value]
                                          && r.value.t == acc.t && r.value.n == acc.n)
            && (r.Ok? && |parts| == 2 ==> ParseIndex(parts[0], c.vertices, lineInd).Ok? && ParseIndex(parts[1], c.textures, lineInd).Ok?
                                          && r.value.v == acc.v + [ParseIndex(parts[0], c.vertices, lineInd).value]
                                          && r.value.t == acc.t + [ParseIndex(parts[1], c.textures, lineInd).value]
                                          && r.value.n == acc.n)
            && (r.Ok? && |parts| == 3 ==> ParseIndex(parts[0], c.vertices, lineInd).Ok? && ParseIndex(parts[2], c.normals, lineInd).Ok?
                                          && r.value.v == acc.v + [ParseIndex(parts[0], c.vertices, lineInd).value]
                                          && r.value.n == acc.n + [ParseIndex(parts[2], c.normals, lineInd).value]
                                          && (parts[1] == "" ==> r.value.t == acc.t)
                                          && (parts[1] != "" ==>
                                                (ParseIndex(parts[1], c.textures, lineInd).Ok?
                                                 && r.value.t == acc.t + [ParseIndex(parts[1], c.textures, lineInd).value])))
    ensures r.Err? ==> r.error.line == lineInd
    ensures r.Ok? && ListsInRange(acc, c) ==> ListsInRange(r.value, c)
  {
    var parts := SplitOn(word, '/');
    if |parts| == 1 then
      match ParseIndex(parts[0], c.vertices, lineInd)
      case Err(e) => Err(e)
      case Ok(v) => Ok(acc.(v := acc.v + [v]))
    else if |parts| == 2 then
      match ParseIndex(parts[0], c.vertices, lineInd)
      case Err(e) => Err(e)
      case Ok(v) =>
        match ParseIndex(parts[1], c.textures, lineInd)
        case Err(e) => Err(e)
        case Ok(t) => Ok(FaceLists(acc.v + [v], acc.t + [t], acc.n))
    else if |parts| == 3 then
      match ParseIndex(parts[0], c.vertices, lineInd)
      case Err(e) => Err(e)
      case Ok(v) =>
        match ParseIndex(parts[2], c.normals, lineInd)
        case Err(e) => Err(e)
        case Ok(n) =>
          if parts[1] == "" then Ok(FaceLists(acc.v + [v], acc.t, acc.n + [n]))
          else
            match ParseIndex(parts[1], c.textures, lineInd)
            case Err(e) => Err(e)
            case Ok(t) => Ok(FaceLists(acc.v + [v], acc.t + [t], acc.n + [n]))
    else Err(ObjError(lineInd, "Invalid element size."))
  }

  /** The lists after the words of a face line, left to right. */
  function FaceWords(words: seq<string>, lineInd: int, c: Counts): (r: Result<FaceLists, ObjError>)
    ensures r.Ok? ==> ListsInRange(r.value, c)
    ensures r.Ok? ==> |r.value.v| == |words|
    ensures r.Err? ==> r.error.line == lineInd
  {
    if |words| == 0 then Ok(FaceLists([], [], []))
    else match FaceWords(words[..|words| - 1], lineInd, c)
      case Err(e) => Err(e)
      case Ok(acc) => ParseFaceWord(words[|words| - 1], acc, lineInd, c)
  }

  /** A word that adds one vertex index adds exactly one. */
  lemma ParseFaceWordAddsOneVertex(word: string, acc: FaceLists, lineInd: int, c: Counts)
    ensures ParseFaceWord(word, acc, lineInd, c).Ok? ==> |ParseFaceWord(word, acc, lineInd, c).value.v| == |acc.v| + 1
  {
  }

  /** parseFace: the loop over the words, then a new Polygon with the lists. */
  method ParseFace(words: seq<string>, lineInd: int, c: Counts) returns (r: Result<Polygon, ObjError>)
    ensures r.Err? <==> FaceWords(words, lineInd, c).Err?
    ensures r.Err? ==> r.error == FaceWords(words, lineInd, c).error
    ensures r.Ok? ==> r.value == FacePolygon(FaceWords(words, lineInd, c).value.v, FaceWords(words, lineInd, c).value.t,
                                             FaceWords(words, lineInd, c).value.n)
  {
    var acc := FaceLists([], [], []);
    for i := 0 to |words|
      invariant FaceWords(words[..i], lineInd, c) == Ok(acc)
    {
      assert words[..i + 1][..i] == words[..i];
      var next := ParseFaceWord(words[i], acc, lineInd, c);
      if next.Err? {
        FaceWordsErrorSticky(words, i + 1, lineInd, c);
        return Err(next.error);
      }
      acc := next.value;
    }
    assert words[..|words|] == words;
    r := Ok(FacePolygon(acc.v, acc.t, acc.n));
  }

  /** An error in a prefix of the words is the error of the whole line. */
  lemma {:induction false} FaceWordsErrorSticky(words: seq<string>, i: nat, lineInd: int, c: Counts)
    requires i <= |words|
    requires FaceWords(words[..i], lineInd, c).Err?
    ensures FaceWords(words, lineInd, c) == FaceWords(words[..i], lineInd, c)
    decreases |words| - i
  {
    if i < |words| {
      assert words[..i + 1][..i] == words[..i];
      FaceWordsErrorSticky(words, i + 1, lineInd, c);
    } else {
      assert words[..i] == words;
    }
  }

  /** A face reference to a vertex not yet read fails, even when a later
      line would define it. */
  lemma ForwardReferenceFails(k: int, acc: FaceLists, lineInd: int, c: Counts)
    requires c.vertices < k <= INT_MAX
    ensures ParseFaceWord(IntToString(k), acc, lineInd, c) == Err(ObjError(lineInd, "Invalid index."))
  {
    ParseIntToString(k);
    var s := IntToString(k);
    assert '/' !in s by {
      forall i | 0 <= i < |s| ensures s[i] != '/' { }
    }
  }

  // ------------------------------------------------------------ lines

  /** The reader's state between lines: lineInd and the model so far. */
  datatype ReadState = ReadState(lineInd: int, model: ObjModel)
  {
    function Sizes(): Counts
    {
      Counts(|model.vertices|, |model.textureVertices|, |model.normals|)
    }
  }

  /** The words of a line, as line.split("\\s+"). */
  function Words(line: string): seq<string>
  {
    SplitOnSpaces(line)
  }

  /** One line of read: a line with no words is skipped before lineInd
      is incremented; every other line counts, and only v, vt, vn and f
      change the model. */
  function Step(st: ReadState, line: string): (r: Result<ReadState, ObjError>)
    ensures r.Err? ==> r.error.line == st.lineInd + 1
  {
    var words := Words(line);
    if |words| == 0 then Ok(st)
    else
      var token, rest, li, m := words[0], words[1..], st.lineInd + 1, st.model;
      if token == "v" then
        match ParseVertex(rest, li)
        case Err(e) => Err(e)
        case Ok(v) => Ok(ReadState(li, m.(vertices := m.vertices + [v])))
      else if token == "vt" then
        match ParseTextureVertex(rest, li)
        case Err(e) => Err(e)
        case Ok(t) => Ok(ReadState(li, m.(textureVertices := m.textureVertices + [t])))
      else if token == "vn" then
        match ParseNormal(rest, li)
        case Err(e) => Err(e)
        case Ok(n) => Ok(ReadState(li, m.(normals := m.normals + [n])))
      else if token == "f" then
        match FaceWords(rest, li, st.Sizes())
        case Err(e) => Err(e)
        case Ok(f) => Ok(ReadState(li, m.(polygons := m.polygons + [FacePolygon(f.v, f.t, f.n)])))
      else Ok(ReadState(li, m))
  }

  function Initial(): ReadState
  {
    ReadState(0, EmptyModel())
  }

  /** The state after the first lines of the file, or the first error. */
  function ReadPrefix(lines: seq<string>): Result<ReadState, ObjError>
  {
    if |lines| == 0 then Ok(Initial())
    else match ReadPrefix(lines[..|lines| - 1])
      case Err(e) => Err(e)
      case Ok(st) => Step(st, lines[|lines| - 1])
  }

  /** Reading one more line is one more step. */
  lemma ReadPrefixSnoc(lines: seq<string>, i: nat)
    requires i < |lines| && ReadPrefix(lines[..i]).Ok?
    ensures ReadPrefix(lines[..i + 1]) == Step(ReadPrefix(lines[..i]).value, lines[i])
  {
    assert lines[..i + 1][..i] == lines[..i];
  }

  lemma {:induction false} ReadPrefixErrorSticky(lines: seq<string>, i: nat)
    requires i <= |lines|
    requires ReadPrefix(lines[..i]).Err?
    ensures ReadPrefix(lines) == ReadPrefix(lines[..i])
    decreases |lines| - i
  {
    if i < |lines| {
      assert lines[..i + 1][..i] == lines[..i];
      ReadPrefixErrorSticky(lines, i + 1);
    } else {
      assert lines[..i] == lines;
    }
  }

  // ------------------------------------------------------------ validation

  /** validatePolygon: the first violation, reported with the polygon's index. */
  function PolygonError(m: ObjModel, p: Polygon, index: int): (r: Option<ObjError>)
    ensures r.Some? ==> r.value.line == index
    ensures r.None? <==> PolygonValid(m, p)
  {
    var v, t, n := p.vertexIndices, p.Textures(), p.Normals();
    if |v| < 3 then Some(ObjError(index, "Polygon has less than 3 vertices."))
    else if !AllInRange(v, |m.vertices|) then Some(ObjError(index, "Invalid vertex index."))
    else if |t| != 0 && |t| != |v| then Some(ObjError(index, "Not all vertices have textures."))
    else if !AllInRange(t, |m.textureVertices|) then Some(ObjError(index, "Invalid texture index."))
    else if |n| != 0 && |n| != |v| then Some(ObjError(index, "The number of normals and vertices does not match."))
    else if !AllInRange(n, |m.normals|) then Some(ObjError(index, "Invalid normals index."))
    else None
  }

  /** What a polygon that passes validation satisfies: at least three vertex
      indices in range, and texture and normal lists each empty or as long as
      the vertex list, with every entry in range. */
  predicate PolygonValid(m: ObjModel, p: Polygon)
  {
    && |p.vertexIndices| >= 3 && AllInRange(p.vertexIndices, |m.vertices|)
    && (|p.Textures()| == 0 || |p.Textures()| == |p.vertexIndices|) && AllInRange(p.Textures(), |m.textureVertices|)
    && (|p.Normals()| == 0 || |p.Normals()| == |p.vertexIndices|) && AllInRange(p.Normals(), |m.normals|)
  }

  /** The first failing polygon from index i on. */
  function PolygonsErrorFrom(m: ObjModel, i: nat): (r: Option<ObjError>)
    requires i <= |m.polygons|
    ensures r.None? <==> forall j :: i <= j < |m.polygons| ==> PolygonValid(m, m.polygons[j])
    ensures r.Some? ==> exists j :: i <= j < |m.polygons| && r == PolygonError(m, m.polygons[j], j)
    decreases |m.polygons| - i
  {
    if i == |m.polygons| then None
    else match PolygonError(m, m.polygons[i], i)
      case Some(e) => Some(e)
      case None => PolygonsErrorFrom(m, i + 1)
  }

  /** validateModel: no vertices, then no polygons (both on line -1), then
      the polygons in order. */
  function ModelError(m: ObjModel): (r: Option<ObjError>)
    ensures |m.vertices| == 0 ==> r == Some(ObjError(-1, "Model has no vertices."))
    ensures |m.vertices| > 0 && |m.polygons| == 0 ==> r == Some(ObjError(-1, "Model has no polygons."))
    ensures r.None? <==> |m.vertices| > 0 && |m.polygons| > 0 && forall j :: 0 <= j < |m.polygons| ==> PolygonValid(m, m.polygons[j])
  {
    if |m.vertices| == 0 then Some(ObjError(-1, "Model has no vertices."))
    else if |m.polygons| == 0 then Some(ObjError(-1, "Model has no polygons."))
    else PolygonsErrorFrom(m, 0)
  }

  /** validateModel's loop over the polygons. */
  method ValidateModel(m: ObjModel) returns (r: Option<ObjError>)
    ensures r == ModelError(m)
  {
    if |m.vertices| == 0 {
      return Some(ObjError(-1, "Model has no vertices."));
    }
    if |m.polygons| == 0 {
      return Some(ObjError(-1, "Model has no polygons."));
    }
    for i := 0 to |m.polygons|
      invariant PolygonsErrorFrom(m, 0) == PolygonsErrorFrom(m, i)
    {
      var e := PolygonError(m, m.polygons[i], i);
      if e.Some? {
        return e;
      }
    }
    return None;
  }

  // ------------------------------------------------------------ read

  /** read(fileContent): the model, or the first ObjReaderException. */
  function ReadSpec(content: string): (r: Result<ObjModel, ObjError>)
  {
    match ReadPrefix(ScannerLines(content))
    case Err(e) => Err(e)
    case Ok(st) =>
      match ModelError(st.model)
      case Some(e) => Err(e)
      case None => Ok(st.model)
  }

  method Read(content: string) returns (r: Result<ObjModel, ObjError>)
    ensures r == ReadSpec(content)
  {
    var lines := ScannerLines(content);
    var st := Initial();
    for i := 0 to |lines|
      invariant ReadPrefix(lines[..i]) == Ok(st)
    {
      ReadPrefixSnoc(lines, i);
      var next := Step(st, lines[i]);
      if next.Err? {
        ReadPrefixErrorSticky(lines, i + 1);
        return Err(next.error);
      }
      st := next.value;
    }
    assert lines[..|lines|] == lines;
    var e := ValidateModel(st.model);
    if e.Some? {
      return Err(e.value);
    }
    return Ok(st.model);
  }

  // ------------------------------------------------------------ properties

  /** A successful read yields only valid polygons. */
  lemma ReadSuccessIsValid(content: string)
    requires ReadSpec(content).Ok?
    ensures var m := ReadSpec(content).value;
            |m.vertices| > 0 && |m.polygons| > 0 && forall j :: 0 <= j < |m.polygons| ==> PolygonValid(m, m.polygons[j])
  {
  }

  /** Every polygon of a read-so-far state has its indices in range of the
      current counts, since indices resolve against the counts at their line
      and the counts only grow. */
  predicate IndicesInRange(m: ObjModel)
  {
    forall j :: 0 <= j < |m.polygons| ==>
      && AllInRange(m.polygons[j].vertexIndices, |m.vertices|)
      && AllInRange(m.polygons[j].Textures(), |m.textureVertices|)
      && AllInRange(m.polygons[j].Normals(), |m.normals|)
  }

  lemma StepKeepsIndicesInRange(st: ReadState, line: string)
    requires IndicesInRange(st.model)
    requires Step(st, line).Ok?
    ensures IndicesInRange(Step(st, line).value.model)
  {
    var m, m' := st.model, Step(st, line).value.model;
    assert |m.vertices| <= |m'.vertices| && |m.textureVertices| <= |m'.textureVertices| && |m.normals| <= |m'.normals|;
    assert m'.polygons[..|m.polygons|] == m.polygons || m'.polygons == m.polygons;
  }

  lemma {:induction false} ReadPrefixIndicesInRange(lines: seq<string>)
    requires ReadPrefix(lines).Ok?
    ensures IndicesInRange(ReadPrefix(lines).value.model)
  {
    if |lines| > 0 {
      ReadPrefixIndicesInRange(lines[..|lines| - 1]);
      StepKeepsIndicesInRange(ReadPrefix(lines[..|lines| - 1]).value, lines[|lines| - 1]);
    }
  }

  /** Validation after a complete parse can only report a short polygon or a
      texture or normal list of the wrong length: never an index error. */
  lemma ReadNeverReportsIndexErrors(content: string)
    requires ReadPrefix(ScannerLines(content)).Ok?
    ensures ReadSpec(content).Err? ==>
              ReadSpec(content).error.message !in {"Invalid vertex index.", "Invalid texture index.", "Invalid normals index."}
  {
    var lines := ScannerLines(content);
    ReadPrefixIndicesInRange(lines);
    var m := ReadPrefix(lines).value.model;
    if |m.vertices| > 0 && |m.polygons| > 0 && PolygonsErrorFrom(m, 0).Some? {
      var j :| 0 <= j < |m.polygons| && PolygonsErrorFrom(m, 0) == PolygonError(m, m.polygons[j], j);
    }
  }

  /** A line with no words is skipped without counting; a line whose first
      word is not v, vt, vn or f counts but changes nothing. */
  lemma IgnoredLines(st: ReadState, line: string)
    ensures |Words(line)| == 0 ==> Step(st, line) == Ok(st)
    ensures |Words(line)| > 0 && Words(line)[0] !in {"v", "vt", "vn", "f"} ==>
              Step(st, line) == Ok(ReadState(st.lineInd + 1, st.model))
  {
  }

  /** Each v, vt and vn line appends one element at the end of its list and
      leaves the other lists alone; an f line appends one polygon. */
  lemma StepAppends(st: ReadState, line: string)
    requires Step(st, line).Ok?
    ensures var m, m' := st.model, Step(st, line).value.model;
            && m'.vertices[..|m.vertices|] == m.vertices && |m'.vertices| <= |m.vertices| + 1
            && m'.textureVertices[..|m.textureVertices|] == m.textureVertices && |m'.textureVertices| <= |m.textureVertices| + 1
            && m'.normals[..|m.normals|] == m.normals && |m'.normals| <= |m.normals| + 1
            && m'.polygons[..|m.polygons|] == m.polygons && |m'.polygons| <= |m.polygons| + 1
    ensures var words := Words(line);
            var m, m' := st.model, Step(st, line).value.model;
            && (|words| > 0 && words[0] == "v" <==> |m'.vertices| == |m.vertices| + 1)
            && (|words| > 0 && words[0] == "vt" <==> |m'.textureVertices| == |m.textureVertices| + 1)
            && (|words| > 0 && words[0] == "vn" <==> |m'.normals| == |m.normals| + 1)
            && (|words| > 0 && words[0] == "f" <==> |m'.polygons| == |m.polygons| + 1)
  {
    var words := Words(line);
    if |words| > 0 {
      var token := words[0];
      assert token == "v" ==> token != "vt" && token != "vn" && token != "f";
      assert token == "vt" ==> token != "vn" && token != "f";
      assert token == "vn" ==> token != "f";
    }
  }

  /** The number of lines whose first word is `token`. */
  function CountToken(lines: seq<string>, token: string): nat
  {
    if |lines| == 0 then 0
    else CountToken(lines[..|lines| - 1], token) + if |Words(lines[|lines| - 1])| > 0 && Words(lines[|lines| - 1])[0] == token then 1 else 0
  }

  /** After a successful parse each list holds one element per line of its
      kind, and the elements read earlier come first. */
  lemma {:induction false} ReadPrefixCounts(lines: seq<string>)
    requires ReadPrefix(lines).Ok?
    ensures var m := ReadPrefix(lines).value.model;
            && |m.vertices| == CountToken(lines, "v")
            && |m.textureVertices| == CountToken(lines, "vt")
            && |m.normals| == CountToken(lines, "vn")
            && |m.polygons| == CountToken(lines, "f")
  {
    if |lines| > 0 {
      var init := lines[..|lines| - 1];
      ReadPrefixCounts(init);
      StepAppends(ReadPrefix(init).value, lines[|lines| - 1]);
    }
  }

  lemma {:induction false} ReadPrefixExtends(lines: seq<string>, i: nat)
    requires i <= |lines|
    requires ReadPrefix(lines).Ok?
    ensures ReadPrefix(lines[..i]).Ok?
    ensures var m, m' := ReadPrefix(lines[..i]).value.model, ReadPrefix(lines).value.model;
            && m.vertices <= m'.vertices && m.textureVertices <= m'.textureVertices
            && m.normals <= m'.normals && m.polygons <= m'.polygons
    decreases |lines| - i
  {
    if i == |lines| {
      assert lines[..i] == lines;
    } else {
      var init := lines[..|lines| - 1];
      assert init[..i] == lines[..i];
      if ReadPrefix(init).Err? {
        assert false;
      }
      ReadPrefixExtends(init, i);
      StepAppends(ReadPrefix(init).value, lines[|lines| - 1]);
    }
  }

  /** Comments are not stripped inside a line: a vertex line with a trailing
      comment has too many words. */
  lemma TrailingCommentRejected(st: ReadState)
    ensures Step(st, "v 1 2 3 # c") == Err(ObjError(st.lineInd + 1, "Too many vertex arguments."))
  {
    CommentLineWords();
    LongVertexLineRejected(st, "v 1 2 3 # c");
  }

  lemma LongVertexLineRejected(st: ReadState, line: string)
    requires |Words(line)| > 4 && Words(line)[0] == "v"
    ensures Step(st, line) == Err(ObjError(st.lineInd + 1, "Too many vertex arguments."))
  {
  }

  lemma CommentLineWords()
    ensures Words("v 1 2 3 # c") == ["v", "1", "2", "3", "#", "c"]
  {
    var words := ["v", "1", "2", "3", "#", "c"];
    assert JoinSpace(["c"]) == "c";
    assert JoinSpace(["#", "c"]) == "# c";
    assert JoinSpace(["3", "#", "c"]) == "3 # c";
    assert JoinSpace(["2", "3", "#", "c"]) == "2 3 # c";
    assert JoinSpace(["1", "2", "3", "#", "c"]) == "1 2 3 # c";
    assert JoinSpace(words) == "v 1 2 3 # c";
    assert forall i :: 0 <= i < |words| ==> |words[i]| == 1 && !IsSpace(words[i][0]);
    SplitOnSpacesJoin(words);
  }
}
