/** GuiController.shiftIndices: when several models are saved into one OBJ
    file, the face references of each later model's text are offset by the
    vertex, texture-vertex and normal counts written before it. The
    rewrite works line by line and token by token on the text. */
module IndexShift {
  import opened Wrappers
  import opened JavaText

  /** The three offsets, Java ints. */
  datatype Offsets = Offsets(v: int, vt: int, vn: int)
  {
    predicate Valid() { IsInt(v) && IsInt(vt) && IsInt(vn) }
    predicate IsZero() { v == 0 && vt == 0 && vn == 0 }
  }

  /** The uncaught ArrayIndexOutOfBoundsException of `indices[0]` when a
      token is made of slashes only. */
  const NO_FIRST_FIELD := "Index 0 out of bounds for length 0"

  /** `Integer.parseInt(field) + offset` in int arithmetic, printed. */
  function Shifted(value: int, offset: int): string
  {
    IntToString(Apply(value, offset))
  }

  /** What one non-empty token appends to the face: " " and the shifted
      reference; " " and the token itself when a number does not parse,
      after whatever was appended before that field. */
  function ShiftToken(token: string, o: Offsets): (r: Result<string, string>)
  {
    var fields := SplitOn(token, '/');
    if |fields| == 0 then Err(NO_FIRST_FIELD)
    else
      match ParseInt(fields[0])
      case None => Ok(" " + token)
      case Some(a) =>
        var withV := " " + Shifted(a, o.v);
        if |fields| > 1 && fields[1] != "" then
          match ParseInt(fields[1])
          case None => Ok(withV + " " + token)
          case Some(b) => Ok(NormalPart(withV + "/" + Shifted(b, o.vt), fields, token, o))
        else if |fields| > 2 then Ok(NormalPart(withV + "/", fields, token, o))
        else Ok(NormalPart(withV, fields, token, o))
  }

  /** The third field, appended after the first two. */
  function NormalPart(text: string, fields: seq<string>, token: string, o: Offsets): string
  {
    if |fields| > 2 && fields[2] != "" then
      match ParseInt(fields[2])
      case None => text + " " + token
      case Some(c) => text + "/" + Shifted(c, o.vn)
    else text
  }

  /** The face rebuilt from "f" over the tokens, skipping empty ones. */
  function FaceText(tokens: seq<string>, o: Offsets): (r: Result<string, string>)
  {
    if |tokens| == 0 then Ok("f")
    else
      match FaceText(tokens[..|tokens| - 1], o)
      case Err(e) => Err(e)
      case Ok(face) =>
        var token := tokens[|tokens| - 1];
        if token == "" then Ok(face)
        else
          match ShiftToken(token, o)
          case Err(e) => Err(e)
          case Ok(t) => Ok(face + t)
  }

  predicate IsFaceLine(line: string)
  {
    StartsWith(Trim(line), "f ")
  }

  /** One output line: a face line is rebuilt from its tokens, any other
      line is copied verbatim; both end in "\n". */
  function ShiftLine(line: string, o: Offsets): (r: Result<string, string>)
    ensures !IsFaceLine(line) ==> r == Ok(line + "\n")
  {
    if IsFaceLine(line) then
      match FaceText(SplitOnSpaces(Trim(line)[2..]), o)
      case Err(e) => Err(e)
      case Ok(face) => Ok(face + "\n")
    else Ok(line + "\n")
  }

  function ShiftLines(lines: seq<string>, o: Offsets): Result<string, string>
  {
    if |lines| == 0 then Ok("")
    else
      match ShiftLines(lines[..|lines| - 1], o)
      case Err(e) => Err(e)
      case Ok(out) =>
        match ShiftLine(lines[|lines| - 1], o)
        case Err(e) => Err(e)
        case Ok(l) => Ok(out + l)
  }

  /** shiftIndices: the text unchanged when every offset is zero. */
  function Shift(objContent: string, o: Offsets): (r: Result<string, string>)
    ensures o.IsZero() ==> r == Ok(objContent)
  {
    if o.IsZero() then Ok(objContent) else ShiftLines(SplitOn(objContent, '\n'), o)
  }

  lemma {:induction false} FaceTextSticky(tokens: seq<string>, n: nat, o: Offsets)
    requires n <= |tokens| && FaceText(tokens[..n], o).Err?
    ensures FaceText(tokens, o) == FaceText(tokens[..n], o)
    decreases |tokens| - n
  {
    if n < |tokens| {
      assert tokens[..|tokens| - 1][..n] == tokens[..n];
      FaceTextSticky(tokens[..|tokens| - 1], n, o);
    } else {
      assert tokens[..n] == tokens;
    }
  }

  lemma {:induction false} ShiftLinesSticky(lines: seq<string>, n: nat, o: Offsets)
    requires n <= |lines| && ShiftLines(lines[..n], o).Err?
    ensures ShiftLines(lines, o) == ShiftLines(lines[..n], o)
    decreases |lines| - n
  {
    if n < |lines| {
      assert lines[..|lines| - 1][..n] == lines[..n];
      ShiftLinesSticky(lines[..|lines| - 1], n, o);
    } else {
      assert lines[..n] == lines;
    }
  }

  lemma ShiftLinesStep(lines: seq<string>, i: nat, o: Offsets, out: string, t: string)
    requires i < |lines|
    requires ShiftLines(lines[..i], o) == Ok(out) && ShiftLine(lines[i], o) == Ok(t)
    ensures ShiftLines(lines[..i + 1], o) == Ok(out + t)
  {
    assert lines[..i + 1][..i] == lines[..i];
  }

  lemma ShiftLinesStopAt(lines: seq<string>, i: nat, o: Offsets, out: string, e: string)
    requires i < |lines|
    requires ShiftLines(lines[..i], o) == Ok(out) && ShiftLine(lines[i], o) == Err(e)
    ensures ShiftLines(lines, o) == Err(e)
  {
    assert lines[..i + 1][..i] == lines[..i];
    ShiftLinesSticky(lines, i + 1, o);
  }

  /** The token loop of one face line, appending to newFace. */
  method ShiftFace(tokens: seq<string>, o: Offsets) returns (r: Result<string, string>)
    ensures r == FaceText(tokens, o)
  {
    var newFace := "f";
    for k := 0 to |tokens|
      invariant FaceText(tokens[..k], o) == Ok(newFace)
    {
      assert tokens[..k + 1][..k] == tokens[..k];
      var token := tokens[k];
      if token == "" {
        continue;
      }
      var appended := ShiftToken(token, o);
      if appended.Err? {
        FaceTextSticky(tokens, k + 1, o);
        return Err(appended.error);
      }
      newFace := newFace + appended.value;
    }
    assert tokens[..|tokens|] == tokens;
    r := Ok(newFace);
  }

  /** The body of the line loop: a face line is rebuilt by the token
      loop, any other line is copied. */
  method ShiftOneLine(line: string, o: Offsets) returns (r: Result<string, string>)
    ensures r == ShiftLine(line, o)
  {
    var trimmed := Trim(line);
    if StartsWith(trimmed, "f ") {
      var newFace := ShiftFace(SplitOnSpaces(trimmed[2..]), o);
      if newFace.Err? {
        return Err(newFace.error);
      }
      r := Ok(newFace.value + "\n");
    } else {
      r := Ok(line + "\n");
    }
  }

  method ShiftIndices(objContent: string, vOffset: int, vtOffset: int, vnOffset: int) returns (r: Result<string, string>)
    ensures r == Shift(objContent, Offsets(vOffset, vtOffset, vnOffset))
  {
    var o := Offsets(vOffset, vtOffset, vnOffset);
    if vOffset == 0 && vtOffset == 0 && vnOffset == 0 {
      return Ok(objContent);
    }
    var result := "";
    var lines := SplitOn(objContent, '\n');
    for i := 0 to |lines|
      invariant ShiftLines(lines[..i], o) == Ok(result)
    {
      var shifted := ShiftOneLine(lines[i], o);
      if shifted.Err? {
        ShiftLinesStopAt(lines, i, o, result, shifted.error);
        return Err(shifted.error);
      }
      ShiftLinesStep(lines, i, o, result, shifted.value);
      result := result + shifted.value;
    }
    assert lines[..|lines|] == lines;
    r := Ok(result);
  }

  // ------------------------------------------------------------ references

  /** A well-formed face reference: "v", "v/t", "v/t/n" or "v//n". */
  datatype Ref = Ref(v: int, t: Option<int>, n: Option<int>)

  function RefText(x: Ref): string
  {
    IntToString(x.v)
      + (if x.t.Some? then "/" + IntToString(x.t.value) else if x.n.Some? then "/" else "")
      + (if x.n.Some? then "/" + IntToString(x.n.value) else "")
  }

  function Apply(value: int, offset: int): int
  {
    WrapInt(value + offset)
  }

  /** The reference with each present index moved by its offset. */
  function ShiftRef(x: Ref, o: Offsets): Ref
  {
    Ref(Apply(x.v, o.v),
        if x.t.Some? then Some(Apply(x.t.value, o.vt)) else None,
        if x.n.Some? then Some(Apply(x.n.value, o.vn)) else None)
  }

  predicate RefIsInt(x: Ref)
  {
    IsInt(x.v) && (x.t.Some? ==> IsInt(x.t.value)) && (x.n.Some? ==> IsInt(x.n.value))
  }

  lemma NoSlash(n: int)
    ensures '/' !in IntToString(n) && IntToString(n) != ""
    ensures !HasSpace(IntToString(n)) && '\n' !in IntToString(n)
  {
    var s := IntToString(n);
    assert forall i :: 0 <= i < |s| ==> s[i] != '/' && !IsSpace(s[i]) && s[i] != '\n';
  }

  /** Each well-formed reference is rewritten in its own shape with v, vt
      and vn moved by their offsets: a//c stays a//c. */
  lemma ShiftTokenOfRef(x: Ref, o: Offsets)
    requires RefIsInt(x)
    ensures ShiftToken(RefText(x), o) == Ok(" " + RefText(ShiftRef(x, o)))
  {
    if x.t.None? && x.n.None? {
      ShiftTokenV(x.v, o);
    } else if x.t.Some? && x.n.None? {
      ShiftTokenVT(x.v, x.t.value, o);
    } else if x.t.None? {
      ShiftTokenVN(x.v, x.n.value, o);
    } else {
      ShiftTokenVTN(x.v, x.t.value, x.n.value, o);
    }
  }

  lemma ShiftTokenV(a: int, o: Offsets)
    requires IsInt(a)
    ensures ShiftToken(RefText(Ref(a, None, None)), o) == Ok(" " + RefText(ShiftRef(Ref(a, None, None), o)))
  {
    NoSlash(a);
    ParseIntToString(a);
    var sv := IntToString(a);
    assert RefText(Ref(a, None, None)) == sv;
    assert SplitOn(sv, '/') == [sv];
    var fields := [sv];
    assert ShiftToken(sv, o) == Ok(NormalPart(" " + Shifted(a, o.v), fields, sv, o));
    assert RefText(ShiftRef(Ref(a, None, None), o)) == Shifted(a, o.v);
  }

  lemma ShiftTokenVT(a: int, b: int, o: Offsets)
    requires IsInt(a) && IsInt(b)
    ensures ShiftToken(RefText(Ref(a, Some(b), None)), o) == Ok(" " + RefText(ShiftRef(Ref(a, Some(b), None), o)))
  {
    NoSlash(a);
    NoSlash(b);
    ParseIntToString(a);
    ParseIntToString(b);
    var sv, st := IntToString(a), IntToString(b);
    var token := RefText(Ref(a, Some(b), None));
    assert token == sv + "/" + st;
    SplitOnTwo(sv, st);
    var fields := SplitOn(token, '/');
    assert fields == [sv, st];
    var withV := " " + Shifted(a, o.v);
    assert ShiftToken(token, o) == Ok(NormalPart(withV + "/" + Shifted(b, o.vt), fields, token, o));
    var y := ShiftRef(Ref(a, Some(b), None), o);
    assert y == Ref(Apply(a, o.v), Some(Apply(b, o.vt)), None);
    assert RefText(y) == Shifted(a, o.v) + "/" + Shifted(b, o.vt);
    Associative3(" ", Shifted(a, o.v), "/", Shifted(b, o.vt));
  }

  lemma ShiftTokenVN(a: int, c: int, o: Offsets)
    requires IsInt(a) && IsInt(c)
    ensures ShiftToken(RefText(Ref(a, None, Some(c))), o) == Ok(" " + RefText(ShiftRef(Ref(a, None, Some(c)), o)))
  {
    NoSlash(a);
    NoSlash(c);
    ParseIntToString(a);
    ParseIntToString(c);
    var sv, sn := IntToString(a), IntToString(c);
    var token := RefText(Ref(a, None, Some(c)));
    assert token == sv + "/" + "" + "/" + sn;
    SplitOnThree(sv, "", sn);
    var fields := SplitOn(token, '/');
    assert fields == [sv, "", sn];
    var withV := " " + Shifted(a, o.v);
    assert NormalPart(withV + "/", fields, token, o) == withV + "/" + "/" + Shifted(c, o.vn);
    assert ShiftToken(token, o) == Ok(NormalPart(withV + "/", fields, token, o));
    var y := ShiftRef(Ref(a, None, Some(c)), o);
    assert y == Ref(Apply(a, o.v), None, Some(Apply(c, o.vn)));
    assert RefText(y) == Shifted(a, o.v) + "/" + "/" + Shifted(c, o.vn);
    Associative4(" ", Shifted(a, o.v), "/", "/", Shifted(c, o.vn));
  }

  lemma ShiftTokenVTN(a: int, b: int, c: int, o: Offsets)
    requires IsInt(a) && IsInt(b) && IsInt(c)
    ensures ShiftToken(RefText(Ref(a, Some(b), Some(c))), o) == Ok(" " + RefText(ShiftRef(Ref(a, Some(b), Some(c)), o)))
  {
    NoSlash(a);
    NoSlash(b);
    NoSlash(c);
    ParseIntToString(a);
    ParseIntToString(b);
    ParseIntToString(c);
    var sv, st, sn := IntToString(a), IntToString(b), IntToString(c);
    var token := RefText(Ref(a, Some(b), Some(c)));
    assert token == sv + "/" + st + "/" + sn;
    SplitOnThree(sv, st, sn);
    ShiftTokenOfFields(token, [sv, st, sn], a, b, c, o);
    var y := ShiftRef(Ref(a, Some(b), Some(c)), o);
    assert y == Ref(Apply(a, o.v), Some(Apply(b, o.vt)), Some(Apply(c, o.vn)));
    assert RefText(y) == Shifted(a, o.v) + "/" + Shifted(b, o.vt) + "/" + Shifted(c, o.vn);
    Associative5(" ", Shifted(a, o.v), "/", Shifted(b, o.vt), "/", Shifted(c, o.vn));
  }

  /** Three numeric fields are each shifted and joined by '/'. */
  lemma ShiftTokenOfFields(token: string, fields: seq<string>, a: int, b: int, c: int, o: Offsets)
    requires SplitOn(token, '/') == fields && |fields| == 3
    requires ParseInt(fields[0]) == Some(a) && ParseInt(fields[1]) == Some(b) && ParseInt(fields[2]) == Some(c)
    ensures ShiftToken(token, o) == Ok(" " + Shifted(a, o.v) + "/" + Shifted(b, o.vt) + "/" + Shifted(c, o.vn))
  {
    var withT := " " + Shifted(a, o.v) + "/" + Shifted(b, o.vt);
    assert NormalPart(withT, fields, token, o) == withT + "/" + Shifted(c, o.vn);
  }

  /** Regrouping a concatenation. Dafny knows associativity; these are
      stated once so that the token proofs above, whose contexts are large,
      get the one bracketing they need without searching for it. */
  lemma Associative(a: string, b: string, c: string)
    ensures a + (b + c) == a + b + c
  {
  }

  lemma Associative3(a: string, b: string, c: string, d: string)
    ensures a + (b + c + d) == a + b + c + d
  {
  }

  lemma Associative4(a: string, b: string, c: string, d: string, e: string)
    ensures a + (b + c + d + e) == a + b + c + d + e
  {
  }

  lemma Associative5(a: string, b: string, c: string, d: string, e: string, f: string)
    ensures a + (b + c + d + e + f) == a + b + c + d + e + f
  {
  }

  /** Shifting by the negated offsets undoes a shift that stayed in the
      int range. */
  lemma ShiftRefInverse(x: Ref, o: Offsets)
    requires RefIsInt(x) && RefIsInt(ShiftRef(x, o)) && o.Valid()
    requires IsInt(x.v + o.v) && (x.t.Some? ==> IsInt(x.t.value + o.vt)) && (x.n.Some? ==> IsInt(x.n.value + o.vn))
    ensures ShiftRef(ShiftRef(x, o), Offsets(-o.v, -o.vt, -o.vn)) == x
  {
  }

  /** A token whose first field is a number but whose texture field is not
      keeps the shifted vertex index in front of the verbatim copy. */
  lemma PartialPrefixBeforeCopy(a: int, o: Offsets)
    requires IsInt(a)
    ensures ShiftToken(IntToString(a) + "/x", o) == Ok(" " + Shifted(a, o.v) + " " + (IntToString(a) + "/x"))
  {
    NoSlash(a);
    ParseIntToString(a);
    SplitOnTwo(IntToString(a), "x");
    assert IntToString(a) + "/" + "x" == IntToString(a) + "/x";
    var fields := SplitOn(IntToString(a) + "/x", '/');
    assert fields == [IntToString(a), "x"];
    assert ParseInt(fields[0]) == Some(a);
    assert !IsDigit('x');
    assert ParseInt(fields[1]) == None;
  }

  /** A token of slashes only has no first field. */
  lemma SlashOnlyToken(o: Offsets)
    ensures ShiftToken("/", o) == Err(NO_FIRST_FIELD)
  {
    assert Fields("/", '/') == ["", ""] by {
      assert "/"[1..] == "";
    }
  }

  function RefsText(xs: seq<Ref>): seq<string>
  {
    if |xs| == 0 then [] else RefsText(xs[..|xs| - 1]) + [RefText(xs[|xs| - 1])]
  }

  function ShiftRefs(xs: seq<Ref>, o: Offsets): (r: seq<Ref>)
    ensures |r| == |xs|
  {
    if |xs| == 0 then [] else ShiftRefs(xs[..|xs| - 1], o) + [ShiftRef(xs[|xs| - 1], o)]
  }

  lemma {:induction false} JoinSpaceAppend(ws: seq<string>, w: string)
    requires |ws| >= 1
    ensures JoinSpace(ws + [w]) == JoinSpace(ws) + " " + w
    decreases |ws|
  {
    if |ws| == 1 {
      assert (ws + [w])[1..] == [w];
    } else {
      assert (ws + [w])[1..] == ws[1..] + [w];
      JoinSpaceAppend(ws[1..], w);
    }
  }

  /** A face line of well-formed references is rebuilt as "f" and the
      shifted references joined by single spaces, so it keeps its
      reference count. */
  lemma RefsTextLast(xs: seq<Ref>)
    requires |xs| > 0
    ensures |RefsText(xs)| == |xs|
    ensures RefsText(xs) == RefsText(xs[..|xs| - 1]) + [RefText(xs[|xs| - 1])]
  {
    RefsTextLength(xs);
  }

  lemma {:induction false} RefsTextLength(xs: seq<Ref>)
    ensures |RefsText(xs)| == |xs|
    decreases |xs|
  {
    if |xs| > 0 {
      RefsTextLength(xs[..|xs| - 1]);
    }
  }

  /** A face line of well-formed references is rebuilt as "f" and the
      shifted references joined by single spaces, so it keeps its
      reference count. */
  lemma {:induction false} FaceTextOfRefs(xs: seq<Ref>, o: Offsets)
    requires forall k :: 0 <= k < |xs| ==> RefIsInt(xs[k])
    ensures |RefsText(xs)| == |xs|
    ensures FaceText(RefsText(xs), o) == Ok(JoinSpace(["f"] + RefsText(ShiftRefs(xs, o))))
    decreases |xs|
  {
    RefsTextLength(xs);
    if |xs| == 0 {
      assert RefsText(xs) == [];
      assert JoinSpace(["f"]) == "f";
    } else {
      var front := xs[..|xs| - 1];
      assert RefIsInt(xs[|xs| - 1]);
      FaceTextOfRefs(front, o);
      FaceTextOfRefsStep(xs, o);
    }
  }

  lemma FaceTextOfRefsStep(xs: seq<Ref>, o: Offsets)
    requires |xs| > 0 && RefIsInt(xs[|xs| - 1])
    requires FaceText(RefsText(xs[..|xs| - 1]), o) == Ok(JoinSpace(["f"] + RefsText(ShiftRefs(xs[..|xs| - 1], o))))
    ensures FaceText(RefsText(xs), o) == Ok(JoinSpace(["f"] + RefsText(ShiftRefs(xs, o))))
  {
    var front := xs[..|xs| - 1];
    var x := xs[|xs| - 1];
    var shiftedFront := RefsText(ShiftRefs(front, o));
    var last := RefText(ShiftRef(x, o));
    var face := JoinSpace(["f"] + shiftedFront);
    var tokens := RefsText(xs);
    RefsTextLast(xs);
    assert tokens == RefsText(front) + [RefText(x)];
    NoSlash(x.v);
    ShiftTokenOfRef(x, o);
    FaceTextStep(RefsText(front), RefText(x), o, face, " " + last);
    var joined := face + (" " + last);
    assert FaceText(tokens, o) == Ok(joined);
    ShiftedRefsText(xs, o);
    JoinSpaceAppend(["f"] + shiftedFront, last);
    Associative(face, " ", last);
    assert JoinSpace(["f"] + RefsText(ShiftRefs(xs, o))) == joined;
  }

  /** One more non-empty token appends its rewrite to the face. */
  lemma FaceTextStep(tokens: seq<string>, token: string, o: Offsets, face: string, t: string)
    requires token != ""
    requires FaceText(tokens, o) == Ok(face)
    requires ShiftToken(token, o) == Ok(t)
    ensures FaceText(tokens + [token], o) == Ok(face + t)
  {
    assert (tokens + [token])[..|tokens|] == tokens;
  }

  lemma ShiftedRefsText(xs: seq<Ref>, o: Offsets)
    requires |xs| > 0
    ensures ["f"] + RefsText(ShiftRefs(xs, o))
      == (["f"] + RefsText(ShiftRefs(xs[..|xs| - 1], o))) + [RefText(ShiftRef(xs[|xs| - 1], o))]
  {
    var ys := ShiftRefs(xs, o);
    assert ys[..|ys| - 1] == ShiftRefs(xs[..|xs| - 1], o);
    RefsTextLast(ys);
  }

  // ------------------------------------------------------------ lines

  function CountNewlines(s: string): nat
  {
    if |s| == 0 then 0 else CountNewlines(s[..|s| - 1]) + (if s[|s| - 1] == '\n' then 1 else 0)
  }

  lemma {:induction false} CountNewlinesAppend(a: string, b: string)
    ensures CountNewlines(a + b) == CountNewlines(a) + CountNewlines(b)
    decreases |b|
  {
    if |b| == 0 {
      assert a + b == a;
    } else {
      assert (a + b)[..|a + b| - 1] == a + b[..|b| - 1];
      CountNewlinesAppend(a, b[..|b| - 1]);
    }
  }

  lemma {:induction false} NoNewlineCount(s: string)
    requires '\n' !in s
    ensures CountNewlines(s) == 0
    decreases |s|
  {
    if |s| > 0 {
      assert '\n' !in s[..|s| - 1];
      NoNewlineCount(s[..|s| - 1]);
    }
  }

  lemma ShiftTokenNoNewline(token: string, o: Offsets)
    requires !HasSpace(token) && token != ""
    ensures ShiftToken(token, o).Ok? ==> '\n' !in ShiftToken(token, o).value
  {
    assert '\n' !in token by {
      forall i | 0 <= i < |token| ensures token[i] != '\n' {
        assert !IsSpace(token[i]);
      }
    }
    var fields := SplitOn(token, '/');
    if |fields| > 0 {
      if ParseInt(fields[0]).Some? {
        NoSlash(Apply(ParseInt(fields[0]).value, o.v));
      }
      if |fields| > 1 && ParseInt(fields[1]).Some? {
        NoSlash(Apply(ParseInt(fields[1]).value, o.vt));
      }
      if |fields| > 2 && ParseInt(fields[2]).Some? {
        NoSlash(Apply(ParseInt(fields[2]).value, o.vn));
      }
    }
  }

  lemma {:induction false} FaceTextNoNewline(tokens: seq<string>, o: Offsets)
    requires forall k :: 0 <= k < |tokens| ==> !HasSpace(tokens[k])
    ensures FaceText(tokens, o).Ok? ==> '\n' !in FaceText(tokens, o).value
    decreases |tokens|
  {
    if |tokens| > 0 {
      FaceTextNoNewline(tokens[..|tokens| - 1], o);
      var token := tokens[|tokens| - 1];
      if token != "" {
        ShiftTokenNoNewline(token, o);
      }
    }
  }

  lemma ShiftLineOneNewline(line: string, o: Offsets)
    requires '\n' !in line
    ensures ShiftLine(line, o).Ok? ==> CountNewlines(ShiftLine(line, o).value) == 1
  {
    var body: string;
    if IsFaceLine(line) {
      var tokens := SplitOnSpaces(Trim(line)[2..]);
      assert forall k :: 0 <= k < |tokens| ==> !HasSpace(tokens[k]);
      FaceTextNoNewline(tokens, o);
      if FaceText(tokens, o).Ok? {
        body := FaceText(tokens, o).value;
      } else {
        return;
      }
    } else {
      body := line;
    }
    NoNewlineCount(body);
    CountNewlinesAppend(body, "\n");
    assert CountNewlines("\n") == 1 by { assert "\n"[..0] == ""; }
  }

  lemma {:induction false} ShiftLinesCount(lines: seq<string>, o: Offsets)
    requires forall k :: 0 <= k < |lines| ==> '\n' !in lines[k]
    ensures ShiftLines(lines, o).Ok? ==> CountNewlines(ShiftLines(lines, o).value) == |lines|
    decreases |lines|
  {
    if |lines| > 0 {
      ShiftLinesCount(lines[..|lines| - 1], o);
      ShiftLineOneNewline(lines[|lines| - 1], o);
      var front := ShiftLines(lines[..|lines| - 1], o);
      var last := ShiftLine(lines[|lines| - 1], o);
      if front.Ok? && last.Ok? {
        CountNewlinesAppend(front.value, last.value);
      }
    }
  }

  /** With non-zero offsets, every line of the input after splitting at
      "\n" (trailing empty lines dropped) gives exactly one line of output. */
  lemma OneOutputLinePerInputLine(objContent: string, o: Offsets)
    requires !o.IsZero()
    ensures Shift(objContent, o).Ok? ==> CountNewlines(Shift(objContent, o).value) == |SplitOn(objContent, '\n')|
  {
    ShiftLinesCount(SplitOn(objContent, '\n'), o);
  }
}
