/** The Wavefront OBJ encoder (ObjWriter): after the argument checks and
    the validator, the model is written as an optional comment line, an
    optional object name, the v lines, then blank-line separated blocks of
    vt, vn and f lines. */
module ObjWriter {
  import opened Wrappers
  import opened JavaMath
  import opened JavaText
  import opened ModelValidator
  import ObjReader
  import V3 = Vector3

  /** IllegalArgumentException or ObjWriterException, with its message. */
  datatype WriteError = IllegalArgument(message: string) | ObjWriterError(message: string)

  const DEFAULT_COMMENT := "Exported by Team CG&Geom"

  // ------------------------------------------------------------ numbers

  /** formatted.replaceAll("0*$", ""). */
  function DropTrailingZeros(s: string): (r: string)
    ensures r <= s
    ensures r == [] || r[|r| - 1] != '0'
    ensures forall i :: |r| <= i < |s| ==> s[i] == '0'
  {
    if |s| > 0 && s[|s| - 1] == '0' then DropTrailingZeros(s[..|s| - 1]) else s
  }

  /** The fraction clean-up of formatFloat: only when the text holds a '.',
      drop its trailing zeros and then a trailing '.'. */
  function TrimFraction(s: string): (r: string)
    ensures '.' !in s ==> r == s
    ensures r <= s
    ensures forall i :: |r| <= i < |s| ==> s[i] == '0' || s[i] == '.'
  {
    if '.' in s then
      var z := DropTrailingZeros(s);
      if |z| > 0 && z[|z| - 1] == '.' then z[..|z| - 1] else z
    else s
  }

  predicate AtMostOneDot(s: string)
  {
    forall i, j :: 0 <= i < |s| && 0 <= j < |s| && s[i] == '.' && s[j] == '.' ==> i == j
  }

  /** What survives the clean-up no longer ends in a zero of the fraction. */
  lemma TrimFractionLeavesNoTrailingZero(s: string)
    requires AtMostOneDot(s)
    ensures var r := TrimFraction(s); '.' in r ==> r[|r| - 1] != '0' && r[|r| - 1] != '.'
  {
    var z := DropTrailingZeros(s);
    var r := TrimFraction(s);
  }

  /** Cleaning up twice is cleaning up once, for a number with one point. */
  lemma TrimFractionIdempotent(s: string)
    requires AtMostOneDot(s)
    ensures TrimFraction(TrimFraction(s)) == TrimFraction(s)
  {
    var r := TrimFraction(s);
    TrimFractionLeavesNoTrailingZero(s);
    if '.' in r {
      assert DropTrailingZeros(r) == r;
    }
  }

  /** formatFloat: NaN and the infinities by name, other values as %.6f
      with the zeros of the fraction removed. */
  function FormatFloat(f: JFloat): (r: string)
    ensures f.NaN? ==> r == "NaN"
    ensures f.PosInf? ==> r == "Inf"
    ensures f.NegInf? ==> r == "-Inf"
    ensures f.Finite? ==> r == TrimFraction(FormatFixed6(f.value))
    ensures f.Finite? ==> r <= FormatFixed6(f.value)
    ensures f.Finite? ==> forall i :: |r| <= i < |FormatFixed6(f.value)| ==> FormatFixed6(f.value)[i] in "0."
  {
    match f
    case NaN => "NaN"
    case PosInf => "Inf"
    case NegInf => "-Inf"
    case Finite(x) => TrimFraction(FormatFixed6(x))
  }

  /** The text of a 1-based index: Integer + 1 in 32-bit arithmetic. */
  function IndexText(index: int): string
  {
    IntToString(WrapInt(index + 1))
  }

  // ------------------------------------------------------------ lines

  /** The comment line ("# ") and the object-name line ("o "): written only
      for a non-null text that is not blank once trimmed, and then holding
      the trimmed text after the tag. */
  function TaggedLine(tag: string, text: Option<string>): (r: string)
    ensures r != [] <==> text.Some? && Trim(text.value) != []
    ensures r != [] ==> r == tag + Trim(text.value) + "\n"
  {
    if text.Some? && Trim(text.value) != "" then tag + Trim(text.value) + "\n" else ""
  }

  function VertexLine(v: NVec3): string
  {
    "v " + FormatFloat(v.x) + " " + FormatFloat(v.y) + " " + FormatFloat(v.z)
  }

  function TextureLine(t: NVec2): string
  {
    "vt " + FormatFloat(t.x) + " " + FormatFloat(t.y)
  }

  function NormalLine(n: NVec3): string
  {
    "vn " + FormatFloat(n.x) + " " + FormatFloat(n.y) + " " + FormatFloat(n.z)
  }

  predicate AllPresent<T>(xs: seq<Option<T>>)
  {
    forall i :: 0 <= i < |xs| ==> xs[i].Some?
  }

  /** The v lines of the first vertices, each ending in a newline. */
  function VertexLines(vs: seq<Option<NVec3>>): string
    requires AllPresent(vs)
  {
    if |vs| == 0 then "" else VertexLines(vs[..|vs| - 1]) + VertexLine(vs[|vs| - 1].value) + "\n"
  }

  function TextureLines(ts: seq<Option<NVec2>>): string
    requires AllPresent(ts)
  {
    if |ts| == 0 then "" else TextureLines(ts[..|ts| - 1]) + TextureLine(ts[|ts| - 1].value) + "\n"
  }

  function NormalLines(ns: seq<Option<NVec3>>): string
    requires AllPresent(ns)
  {
    if |ns| == 0 then "" else NormalLines(ns[..|ns| - 1]) + NormalLine(ns[|ns| - 1].value) + "\n"
  }

  /** A list that a polygon writes: non-null and non-empty. */
  function Present(l: Option<seq<int>>): (r: Option<seq<int>>)
    ensures r.Some? <==> l.Some? && |l.value| > 0
    ensures r.Some? ==> r == l
  {
    if l.Some? && |l.value| > 0 then l else None
  }

  /** One face reference: v, v/t, v/t/n or v//n, all 1-based. */
  function FaceRef(v: int, t: Option<int>, n: Option<int>): string
  {
    IndexText(v)
      + (if t.Some? || n.Some? then
           "/" + (if t.Some? then IndexText(t.value) else "") + (if n.Some? then "/" + IndexText(n.value) else "")
         else "")
  }

  function Pick(l: Option<seq<int>>, i: nat): Option<int>
    requires l.Some? ==> i < |l.value|
  {
    if l.Some? then Some(l.value[i]) else None
  }

  /** The first k references of a face, each preceded by a space. */
  function FaceRefs(vs: seq<int>, ts: Option<seq<int>>, ns: Option<seq<int>>, k: nat): string
    requires k <= |vs|
    requires ts.Some? ==> |vs| <= |ts.value|
    requires ns.Some? ==> |vs| <= |ns.value|
  {
    if k == 0 then "" else FaceRefs(vs, ts, ns, k - 1) + (" " + FaceRef(vs[k - 1], Pick(ts, k - 1), Pick(ns, k - 1)))
  }

  /** The lists a polygon reads by position are long enough: get(i) for
      each vertex position i would otherwise throw. */
  predicate PolygonWritable(p: Option<NPolygon>)
  {
    p.Some? && p.value.vertexIndices.Some? && |p.value.vertexIndices.value| > 0 ==>
      var vs := p.value.vertexIndices.value;
      && (Present(p.value.textureVertexIndices).Some? ==> |vs| <= |p.value.textureVertexIndices.value|)
      && (Present(p.value.normalIndices).Some? ==> |vs| <= |p.value.normalIndices.value|)
  }

  /** appendPolygon: nothing for null; a bare "f" without a line break when
      there are no vertex indices; else "f", the references and a newline. */
  function FaceLine(p: Option<NPolygon>): (r: string)
    requires PolygonWritable(p)
    ensures p.None? ==> r == ""
    ensures p.Some? && (p.value.vertexIndices.None? || p.value.vertexIndices == Some([])) ==> r == "f"
    ensures p.Some? && p.value.vertexIndices.Some? && |p.value.vertexIndices.value| > 0 ==>
              |r| > 1 && r[0] == 'f' && r[|r| - 1] == '\n'
  {
    if p.None? then ""
    else if p.value.vertexIndices.None? || |p.value.vertexIndices.value| == 0 then "f"
    else
      var vs := p.value.vertexIndices.value;
      "f" + FaceRefs(vs, Present(p.value.textureVertexIndices), Present(p.value.normalIndices), |vs|) + "\n"
  }

  predicate AllWritable(ps: seq<Option<NPolygon>>)
  {
    forall i :: 0 <= i < |ps| ==> PolygonWritable(ps[i])
  }

  function FaceLines(ps: seq<Option<NPolygon>>): string
    requires AllWritable(ps)
  {
    if |ps| == 0 then "" else FaceLines(ps[..|ps| - 1]) + FaceLine(ps[|ps| - 1])
  }

  /** What buildObjContent dereferences without a null check, present. */
  predicate Writable(m: Snapshot)
  {
    && (m.vertices.Some? ==> AllPresent(m.vertices.value))
    && (m.textureVertices.Some? ==> AllPresent(m.textureVertices.value))
    && (m.normals.Some? ==> AllPresent(m.normals.value))
    && (m.polygons.Some? ==> AllWritable(m.polygons.value))
  }

  /** appendVertices: nothing for a null or empty list. */
  function VerticesText(vs: Option<seq<Option<NVec3>>>): string
    requires vs.Some? ==> AllPresent(vs.value)
  {
    if vs.None? || |vs.value| == 0 then "" else VertexLines(vs.value)
  }

  /** appendTextureVertices, appendNormals and appendPolygons: nothing for a
      null or empty list, else a blank line and the lines. */
  function TexturesText(ts: Option<seq<Option<NVec2>>>): string
    requires ts.Some? ==> AllPresent(ts.value)
  {
    if ts.None? || |ts.value| == 0 then "" else "\n" + TextureLines(ts.value)
  }

  function NormalsText(ns: Option<seq<Option<NVec3>>>): string
    requires ns.Some? ==> AllPresent(ns.value)
  {
    if ns.None? || |ns.value| == 0 then "" else "\n" + NormalLines(ns.value)
  }

  function PolygonsText(ps: Option<seq<Option<NPolygon>>>): string
    requires ps.Some? ==> AllWritable(ps.value)
  {
    if ps.None? || |ps.value| == 0 then "" else "\n" + FaceLines(ps.value)
  }

  /** The text buildObjContent produces, section by section. */
  function Content(m: Snapshot, comment: Option<string>): string
    requires Writable(m)
  {
    TaggedLine("# ", comment) + TaggedLine("o ", m.name) + VerticesText(m.vertices) + TexturesText(m.textureVertices)
      + NormalsText(m.normals) + PolygonsText(m.polygons)
  }

  /** A model the validator accepts can be written. */
  lemma ValidIsWritable(m: Snapshot)
    requires Valid(m)
    ensures Writable(m)
  {
  }

  /** The file of a valid model ends with the line break of its last face. */
  lemma ContentOfValidEndsWithNewline(m: Snapshot, comment: Option<string>)
    requires Valid(m)
    ensures Writable(m)
    ensures var s := Content(m, comment); |s| > 0 && s[|s| - 1] == '\n'
  {
    ValidIsWritable(m);
    var ps := m.polygons.value;
    var i := |ps| - 1;
    assert ps[i].Some? && PolygonOk(ps[i].value, |m.vertices.value|, TextureCount(m), NormalCount(m));
    FaceLinesEndWithNewline(ps);
    var head := TaggedLine("# ", comment) + TaggedLine("o ", m.name) + VerticesText(m.vertices) + TexturesText(m.textureVertices)
      + NormalsText(m.normals);
    LastOfConcat(head, PolygonsText(m.polygons));
  }

  /** The polygon block ends with a line break when its last polygon has
      vertex indices. */
  lemma FaceLinesEndWithNewline(ps: seq<Option<NPolygon>>)
    requires AllWritable(ps) && |ps| > 0
    requires ps[|ps| - 1].Some? && ps[|ps| - 1].value.vertexIndices.Some? && |ps[|ps| - 1].value.vertexIndices.value| > 0
    ensures var s := PolygonsText(Some(ps)); |s| > 0 && s[|s| - 1] == '\n'
  {
    var last := FaceLine(ps[|ps| - 1]);
    LastOfConcat(FaceLines(ps[..|ps| - 1]), last);
    LastOfConcat("\n", FaceLines(ps));
  }

  lemma LastOfConcat(a: string, b: string)
    requires |b| > 0
    ensures |a + b| > 0 && (a + b)[|a + b| - 1] == b[|b| - 1]
  {
  }

  // ------------------------------------------------------------ builders

  lemma Associative(a: string, b: string, c: string)
    ensures (a + b) + c == a + (b + c)
  {
  }

  /** The reference text built piece by piece in appendPolygon. */
  lemma FaceRefShape(v: int, t: Option<int>, n: Option<int>, reference: string)
    requires reference == (if t.Some? || n.Some? then
                             (if n.Some? then (IndexText(v) + "/" + (if t.Some? then IndexText(t.value) else "")) + "/" + IndexText(n.value)
                              else IndexText(v) + "/" + IndexText(t.value))
                           else IndexText(v))
    ensures reference == FaceRef(v, t, n)
  {
  }

  lemma VertexLinesStep(list: seq<Option<NVec3>>, i: nat)
    requires AllPresent(list) && i < |list|
    ensures AllPresent(list[..i]) && AllPresent(list[..i + 1])
    ensures VertexLines(list[..i + 1]) == VertexLines(list[..i]) + (VertexLine(list[i].value) + "\n")
  {
    assert list[..i + 1][..i] == list[..i];
  }

  lemma TextureLinesStep(list: seq<Option<NVec2>>, i: nat)
    requires AllPresent(list) && i < |list|
    ensures AllPresent(list[..i]) && AllPresent(list[..i + 1])
    ensures TextureLines(list[..i + 1]) == TextureLines(list[..i]) + (TextureLine(list[i].value) + "\n")
  {
    assert list[..i + 1][..i] == list[..i];
  }

  lemma NormalLinesStep(list: seq<Option<NVec3>>, i: nat)
    requires AllPresent(list) && i < |list|
    ensures AllPresent(list[..i]) && AllPresent(list[..i + 1])
    ensures NormalLines(list[..i + 1]) == NormalLines(list[..i]) + (NormalLine(list[i].value) + "\n")
  {
    assert list[..i + 1][..i] == list[..i];
  }

  lemma FaceLinesStep(list: seq<Option<NPolygon>>, i: nat)
    requires AllWritable(list) && i < |list|
    ensures AllWritable(list[..i]) && AllWritable(list[..i + 1])
    ensures FaceLines(list[..i + 1]) == FaceLines(list[..i]) + FaceLine(list[i])
  {
    assert list[..i + 1][..i] == list[..i];
  }

  method AppendVertices(sb: string, vs: Option<seq<Option<NVec3>>>) returns (out: string)
    requires vs.Some? ==> AllPresent(vs.value)
    ensures out == sb + VerticesText(vs)
  {
    out := sb;
    if vs.None? || |vs.value| == 0 {
      return;
    }
    var list := vs.value;
    for i := 0 to |list|
      invariant out == sb + VertexLines(list[..i])
    {
      VertexLinesStep(list, i);
      var line := VertexLine(list[i].value) + "\n";
      Associative(sb, VertexLines(list[..i]), line);
      out := out + line;
    }
    assert list[..|list|] == list;
  }

  method AppendTextureVertices(sb: string, ts: Option<seq<Option<NVec2>>>) returns (out: string)
    requires ts.Some? ==> AllPresent(ts.value)
    ensures out == sb + TexturesText(ts)
  {
    out := sb;
    if ts.None? || |ts.value| == 0 {
      return;
    }
    var list := ts.value;
    var start := sb + "\n";
    out := start;
    for i := 0 to |list|
      invariant out == start + TextureLines(list[..i])
    {
      TextureLinesStep(list, i);
      var line := TextureLine(list[i].value) + "\n";
      Associative(start, TextureLines(list[..i]), line);
      out := out + line;
    }
    assert list[..|list|] == list;
    Associative(sb, "\n", TextureLines(list));
  }

  method AppendNormals(sb: string, ns: Option<seq<Option<NVec3>>>) returns (out: string)
    requires ns.Some? ==> AllPresent(ns.value)
    ensures out == sb + NormalsText(ns)
  {
    out := sb;
    if ns.None? || |ns.value| == 0 {
      return;
    }
    var list := ns.value;
    var start := sb + "\n";
    out := start;
    for i := 0 to |list|
      invariant out == start + NormalLines(list[..i])
    {
      NormalLinesStep(list, i);
      var line := NormalLine(list[i].value) + "\n";
      Associative(start, NormalLines(list[..i]), line);
      out := out + line;
    }
    assert list[..|list|] == list;
    Associative(sb, "\n", NormalLines(list));
  }

  method AppendPolygon(sb: string, p: Option<NPolygon>) returns (out: string)
    requires PolygonWritable(p)
    ensures out == sb + FaceLine(p)
  {
    out := sb;
    if p.None? {
      return;
    }
    out := out + "f";
    var ts, ns := Present(p.value.textureVertexIndices), Present(p.value.normalIndices);
    if p.value.vertexIndices.None? || |p.value.vertexIndices.value| == 0 {
      return;
    }
    var vs := p.value.vertexIndices.value;
    var start := out;
    for i := 0 to |vs|
      invariant out == start + FaceRefs(vs, ts, ns, i)
    {
      var reference := IndexText(vs[i]);
      if ts.Some? || ns.Some? {
        reference := reference + "/";
        if ts.Some? {
          reference := reference + IndexText(ts.value[i]);
        }
        if ns.Some? {
          reference := reference + "/" + IndexText(ns.value[i]);
        }
      }
      FaceRefShape(vs[i], Pick(ts, i), Pick(ns, i), reference);
      Associative(start, FaceRefs(vs, ts, ns, i), " " + reference);
      Associative(out, " ", reference);
      out := out + " " + reference;
    }
    out := out + "\n";
    Associative(sb, "f", FaceRefs(vs, ts, ns, |vs|));
    Associative(sb, "f" + FaceRefs(vs, ts, ns, |vs|), "\n");
  }

  method AppendPolygons(sb: string, ps: Option<seq<Option<NPolygon>>>) returns (out: string)
    requires ps.Some? ==> AllWritable(ps.value)
    ensures out == sb + PolygonsText(ps)
  {
    out := sb;
    if ps.None? || |ps.value| == 0 {
      return;
    }
    var list := ps.value;
    var start := sb + "\n";
    out := start;
    for i := 0 to |list|
      invariant out == start + FaceLines(list[..i])
    {
      FaceLinesStep(list, i);
      Associative(start, FaceLines(list[..i]), FaceLine(list[i]));
      out := AppendPolygon(out, list[i]);
    }
    assert list[..|list|] == list;
    Associative(sb, "\n", FaceLines(list));
  }

  /** buildObjContent: the sections appended to one StringBuilder. */
  method BuildObjContent(m: Snapshot, comment: Option<string>) returns (s: string)
    requires Writable(m)
    ensures s == Content(m, comment)
  {
    s := TaggedLine("# ", comment);
    s := s + TaggedLine("o ", m.name);
    s := AppendVertices(s, m.vertices);
    s := AppendTextureVertices(s, m.textureVertices);
    s := AppendNormals(s, m.normals);
    s := AppendPolygons(s, m.polygons);
  }

  // ------------------------------------------------------------ entry points

  /** modelToString(model, comment): the null check, the validator, then
      the text. */
  method ModelToString(model: Option<Snapshot>, comment: Option<string>) returns (r: Result<string, WriteError>)
    ensures model.None? ==> r == Err(IllegalArgument("Model cannot be null"))
    ensures model.Some? && Validate(model).Some? ==> r == Err(ObjWriterError(Validate(model).value))
    ensures r.Ok? <==> Validate(model).None?
    ensures r.Ok? ==> Valid(model.value) && Writable(model.value) && r.value == Content(model.value, comment)
  {
    if model.None? {
      return Err(IllegalArgument("Model cannot be null"));
    }
    var error := Validate(model);
    if error.Some? {
      return Err(ObjWriterError(error.value));
    }
    ValidateAcceptsExactlyValid(model.value);
    var s := BuildObjContent(model.value, comment);
    r := Ok(s);
  }

  /** modelToString(model) with the default comment. */
  method ModelToStringDefault(model: Option<Snapshot>) returns (r: Result<string, WriteError>)
    ensures r.Ok? <==> Validate(model).None?
    ensures r.Ok? ==> Writable(model.value) && r.value == Content(model.value, Some(DEFAULT_COMMENT))
    ensures r.Err? ==> r.error.message == (if model.None? then "Model cannot be null" else Validate(model).value)
  {
    r := ModelToString(model, Some(DEFAULT_COMMENT));
  }

  /** write(model, outputPath): the text that Files.writeString receives,
      after the model and path null checks and the validator. The comment
      is the default one; write goes through modelToString. */
  method Write(model: Option<Snapshot>, outputPath: Option<string>) returns (r: Result<string, WriteError>)
    ensures model.None? ==> r == Err(IllegalArgument("Model cannot be null"))
    ensures model.Some? && outputPath.None? ==> r == Err(IllegalArgument("Output path cannot be null"))
    ensures model.Some? && outputPath.Some? && Validate(model).Some? ==> r == Err(ObjWriterError(Validate(model).value))
    ensures r.Ok? <==> outputPath.Some? && Validate(model).None?
    ensures r.Ok? ==> Writable(model.value) && r.value == Content(model.value, Some(DEFAULT_COMMENT))
  {
    if model.None? {
      return Err(IllegalArgument("Model cannot be null"));
    }
    if outputPath.None? {
      return Err(IllegalArgument("Output path cannot be null"));
    }
    var error := Validate(model);
    if error.Some? {
      return Err(ObjWriterError(error.value));
    }
    r := ModelToString(model, Some(DEFAULT_COMMENT));
  }

  // ------------------------------------------------------------ read back

  /** The written text of a finite float is one word that Float.parseFloat
      maps back to the value: a property of %.6f and parseFloat that the
      model does not derive, so the lemmas take it as a hypothesis. */
  predicate ReadsBack(x: real)
  {
    var s := FormatFloat(Finite(x));
    s != "" && !HasSpace(s) && ParseFloat(s) == Some(x)
  }

  /** A written v line is read back as the same vertex. */
  lemma VertexLineReadBack(st: ObjReader.ReadState, x: real, y: real, z: real)
    requires ReadsBack(x) && ReadsBack(y) && ReadsBack(z)
    ensures ObjReader.Step(st, VertexLine(NVec3(Finite(x), Finite(y), Finite(z))))
            == Ok(ObjReader.ReadState(st.lineInd + 1, st.model.(vertices := st.model.vertices + [V3.Vector3f(x, y, z)])))
  {
    var line := VertexLine(NVec3(Finite(x), Finite(y), Finite(z)));
    var a, b, c := FormatFloat(Finite(x)), FormatFloat(Finite(y)), FormatFloat(Finite(z));
    VertexLineWords(a, b, c);
    assert line == JoinSpace(["v", a, b, c]);
    StepOfVertexWords(st, line, a, b, c, x, y, z);
  }

  lemma VertexLineWords(a: string, b: string, c: string)
    requires a != "" && b != "" && c != "" && !HasSpace(a) && !HasSpace(b) && !HasSpace(c)
    ensures JoinSpace(["v", a, b, c]) == "v " + a + " " + b + " " + c
    ensures ObjReader.Words(JoinSpace(["v", a, b, c])) == ["v", a, b, c]
  {
    JoinFour("v", a, b, c);
    assert !HasSpace("v") by {
      assert forall i :: 0 <= i < |"v"| ==> "v"[i] == 'v';
    }
    FourWordsSplitBack("v", a, b, c);
  }

  lemma FourWordsSplitBack(w: string, a: string, b: string, c: string)
    requires w != "" && a != "" && b != "" && c != ""
    requires !HasSpace(w) && !HasSpace(a) && !HasSpace(b) && !HasSpace(c)
    ensures SplitOnSpaces(JoinSpace([w, a, b, c])) == [w, a, b, c]
  {
    var words := [w, a, b, c];
    forall i | 0 <= i < |words|
      ensures words[i] != "" && !HasSpace(words[i])
    {
    }
    SplitOnSpacesJoin(words);
  }

  lemma JoinFour(w: string, a: string, b: string, c: string)
    ensures JoinSpace([w, a, b, c]) == w + " " + a + " " + b + " " + c
  {
    assert [w, a, b, c][1..] == [a, b, c];
    assert [a, b, c][1..] == [b, c];
    assert [b, c][1..] == [c];
    calc {
      JoinSpace([w, a, b, c]);
      w + " " + JoinSpace([a, b, c]);
      w + " " + (a + " " + JoinSpace([b, c]));
      w + " " + (a + " " + (b + " " + JoinSpace([c])));
      w + " " + (a + " " + (b + " " + c));
      w + " " + a + " " + b + " " + c;
    }
  }

  lemma StepOfVertexWords(st: ObjReader.ReadState, line: string, a: string, b: string, c: string, x: real, y: real, z: real)
    requires ObjReader.Words(line) == ["v", a, b, c]
    requires ParseFloat(a) == Some(x) && ParseFloat(b) == Some(y) && ParseFloat(c) == Some(z)
    ensures ObjReader.Step(st, line)
            == Ok(ObjReader.ReadState(st.lineInd + 1, st.model.(vertices := st.model.vertices + [V3.Vector3f(x, y, z)])))
  {
    var words := ObjReader.Words(line);
    assert words[1..] == [a, b, c];
    var v := ObjReader.ParseVertex([a, b, c], st.lineInd + 1);
    assert v == Ok(V3.Vector3f(x, y, z));
  }

  lemma IndexTextReadBack(index: int, count: nat, lineInd: int)
    requires 0 <= index < count <= INT_MAX
    ensures '/' !in IndexText(index)
    ensures ObjReader.ParseIndex(IndexText(index), count, lineInd) == Ok(index)
  {
    assert WrapInt(index + 1) == index + 1;
    ObjReader.ParseIndexOfText(index + 1, count, lineInd);
    var s := IndexText(index);
    assert forall i :: 0 <= i < |s| ==> s[i] != '/';
  }

  /** A written face reference is read back as the same indices, in each
      of its four forms. */
  lemma FaceRefReadBack(v: int, t: Option<int>, n: Option<int>, acc: ObjReader.FaceLists, lineInd: int, c: ObjReader.Counts)
    requires 0 <= v < c.vertices <= INT_MAX
    requires t.Some? ==> 0 <= t.value < c.textures <= INT_MAX
    requires n.Some? ==> 0 <= n.value < c.normals <= INT_MAX
    ensures ObjReader.ParseFaceWord(FaceRef(v, t, n), acc, lineInd, c)
            == Ok(ObjReader.FaceLists(acc.v + [v],
                                      acc.t + (if t.Some? then [t.value] else []),
                                      acc.n + (if n.Some? then [n.value] else [])))
  {
    IndexTextReadBack(v, c.vertices, lineInd);
    var sv := IndexText(v);
    if t.None? && n.None? {
      assert FaceRef(v, t, n) == sv;
      assert SplitOn(sv, '/') == [sv];
      assert acc.t + [] == acc.t && acc.n + [] == acc.n;
    } else if n.None? {
      IndexTextReadBack(t.value, c.textures, lineInd);
      FaceRefReadBackVT(v, t.value, acc, lineInd, c);
    } else if t.None? {
      IndexTextReadBack(n.value, c.normals, lineInd);
      FaceRefReadBackVN(v, n.value, acc, lineInd, c);
    } else {
      IndexTextReadBack(t.value, c.textures, lineInd);
      IndexTextReadBack(n.value, c.normals, lineInd);
      FaceRefReadBackVTN(v, t.value, n.value, acc, lineInd, c);
    }
  }

  lemma FaceRefReadBackVT(v: int, t: int, acc: ObjReader.FaceLists, lineInd: int, c: ObjReader.Counts)
    requires '/' !in IndexText(v) && '/' !in IndexText(t)
    requires ObjReader.ParseIndex(IndexText(v), c.vertices, lineInd) == Ok(v)
    requires ObjReader.ParseIndex(IndexText(t), c.textures, lineInd) == Ok(t)
    ensures ObjReader.ParseFaceWord(FaceRef(v, Some(t), None), acc, lineInd, c)
            == Ok(ObjReader.FaceLists(acc.v + [v], acc.t + [t], acc.n + []))
  {
    var sv, st := IndexText(v), IndexText(t);
    assert FaceRef(v, Some(t), None) == sv + "/" + st;
    SplitOnTwo(sv, st);
    assert acc.n + [] == acc.n;
  }

  lemma FaceRefReadBackVN(v: int, n: int, acc: ObjReader.FaceLists, lineInd: int, c: ObjReader.Counts)
    requires '/' !in IndexText(v) && '/' !in IndexText(n)
    requires ObjReader.ParseIndex(IndexText(v), c.vertices, lineInd) == Ok(v)
    requires ObjReader.ParseIndex(IndexText(n), c.normals, lineInd) == Ok(n)
    ensures ObjReader.ParseFaceWord(FaceRef(v, None, Some(n)), acc, lineInd, c)
            == Ok(ObjReader.FaceLists(acc.v + [v], acc.t + [], acc.n + [n]))
  {
    var sv, sn := IndexText(v), IndexText(n);
    assert FaceRef(v, None, Some(n)) == sv + "/" + "" + "/" + sn;
    SplitOnThree(sv, "", sn);
    assert acc.t + [] == acc.t;
  }

  lemma FaceRefReadBackVTN(v: int, t: int, n: int, acc: ObjReader.FaceLists, lineInd: int, c: ObjReader.Counts)
    requires '/' !in IndexText(v) && '/' !in IndexText(t) && '/' !in IndexText(n)
    requires ObjReader.ParseIndex(IndexText(v), c.vertices, lineInd) == Ok(v)
    requires ObjReader.ParseIndex(IndexText(t), c.textures, lineInd) == Ok(t)
    requires ObjReader.ParseIndex(IndexText(n), c.normals, lineInd) == Ok(n)
    ensures ObjReader.ParseFaceWord(FaceRef(v, Some(t), Some(n)), acc, lineInd, c)
            == Ok(ObjReader.FaceLists(acc.v + [v], acc.t + [t], acc.n + [n]))
  {
    var sv, st, sn := IndexText(v), IndexText(t), IndexText(n);
    assert FaceRef(v, Some(t), Some(n)) == sv + "/" + st + "/" + sn;
    SplitOnThree(sv, st, sn);
    assert st != "";
  }
}
