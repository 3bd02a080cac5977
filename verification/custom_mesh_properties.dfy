/**
  Properties of the mesh-text parser: the scan is a homomorphism from line
  lists to array triples, blank, comment and unknown-directive lines are
  inert, each directive appends exactly its values, face indices wrap modulo
  2^32, and only the first four vertices are moved by the centre.
 */
module CustomMeshProperties {
  import opened Text
  import opened Numbers
  import opened Drawable
  import opened CustomMesh

  /** Scanning the concatenation of two line lists gives, array by array, the
      concatenation of the two scans. */
  lemma {:induction false} ForEachLineConcat(a: seq<string>, b: seq<string>, step: string -> Arrays)
    ensures ForEachLine(a + b, step) == ForEachLine(a, step).Append(ForEachLine(b, step))
    decreases |b|
  {
    if b == [] {
      assert a + b == a;
    } else {
      var b' := b[..|b| - 1];
      assert (a + b)[..|a + b| - 1] == a + b';
      assert (a + b)[|a + b| - 1] == b[|b| - 1];
      ForEachLineConcat(a, b', step);
    }
  }

  /** Parsing the concatenation of two line lists gives, array by array, the
      concatenation of the two results. */
  lemma ParseConcat(a: seq<string>, b: seq<string>)
    ensures Parse(a + b) == Parse(a).Append(Parse(b))
  {
    ForEachLineConcat(a, b, LineArrays);
  }

  /** No lines, no data: all three arrays empty and a draw count of 0. */
  lemma EmptyInput(center: Vec3)
    ensures Parse([]) == Empty
    ensures Create([], center) == Mesh([], [], [], 0)
  {
  }

  /** Scanning `a`, then `line`, then `b` puts the line's values between those
      of `a` and those of `b`. */
  lemma ForEachLineAround(a: seq<string>, line: string, b: seq<string>, step: string -> Arrays)
    ensures ForEachLine(a + [line] + b, step)
         == ForEachLine(a, step).Append(step(line)).Append(ForEachLine(b, step))
  {
    ForEachLineConcat(a + [line], b, step);
    ForEachLineConcat(a, [line], step);
    assert [line][..0] == [];
    assert ForEachLine([line], step) == Empty.Append(step(line));
  }

  /** A single line contributes exactly what `LineArrays` says. */
  lemma ParseSingle(line: string)
    ensures Parse([line]) == LineArrays(line)
  {
    assert [line][..0] == [];
    assert Parse([]) == Empty;
  }

  /** Parsing `a`, then `line`, then `b` puts the line's values between those
      of `a` and those of `b`. */
  lemma ParseAround(a: seq<string>, line: string, b: seq<string>)
    ensures Parse(a + [line] + b) == Parse(a).Append(LineArrays(line)).Append(Parse(b))
  {
    ForEachLineAround(a, line, b, LineArrays);
  }

  /** A line for which the scan appends nothing can be inserted anywhere. */
  lemma ForEachLineInsertInert(a: seq<string>, line: string, b: seq<string>, step: string -> Arrays)
    requires step(line) == Empty
    ensures ForEachLine(a + [line] + b, step) == ForEachLine(a + b, step)
  {
    ForEachLineAround(a, line, b, step);
    ForEachLineConcat(a, b, step);
  }

  /** A line that appends nothing can be inserted anywhere. */
  lemma InsertInertLine(a: seq<string>, line: string, b: seq<string>)
    requires LineArrays(line) == Empty
    ensures Parse(a + [line] + b) == Parse(a + b)
  {
    ForEachLineInsertInert(a, line, b, LineArrays);
  }

  /** Inserting a blank or comment line anywhere leaves all three arrays as
      they were. */
  lemma SkippedLineIgnored(a: seq<string>, line: string, b: seq<string>)
    requires IsSkipped(line)
    ensures Parse(a + [line] + b) == Parse(a + b)
  {
    InsertInertLine(a, line, b);
  }

  /** Inserting a line whose directive is not `v`, `vn` or `f` leaves all
      three arrays as they were. */
  lemma UnknownDirectiveIgnored(a: seq<string>, line: string, b: seq<string>)
    requires Classify(line).Command?
    requires Classify(line).directive != "v"
    requires Classify(line).directive != "vn"
    requires Classify(line).directive != "f"
    ensures Parse(a + [line] + b) == Parse(a + b)
  {
    assert LineArrays(line) == Empty;
    InsertInertLine(a, line, b);
  }

  /** The lines that are neither blank nor comments, in order. */
  function NonSkipped(lines: seq<string>): (r: seq<string>)
    ensures |r| <= |lines|
    ensures forall i :: 0 <= i < |r| ==> !IsSkipped(r[i])
    ensures forall l :: l in r <==> l in lines && !IsSkipped(l)
    ensures (forall i :: 0 <= i < |lines| ==> !IsSkipped(lines[i])) ==> r == lines
  {
    if lines == [] then []
    else
      var init, last := lines[..|lines| - 1], lines[|lines| - 1];
      assert lines == init + [last];
      assert forall l :: l in lines <==> l in init || l == last;
      assert forall i :: 0 <= i < |init| ==> init[i] == lines[i];
      NonSkipped(init) + (if IsSkipped(last) then [] else [last])
  }

  /** Removing every blank and comment line does not change the result. */
  lemma {:induction false} DropSkippedLines(lines: seq<string>)
    ensures Parse(NonSkipped(lines)) == Parse(lines)
    decreases |lines|
  {
    if lines != [] {
      var init := lines[..|lines| - 1];
      var last := lines[|lines| - 1];
      DropSkippedLines(init);
      ParseConcat(NonSkipped(init), if IsSkipped(last) then [] else [last]);
      ParseSingle(last);
    }
  }

  /** A file of blank and comment lines only parses to three empty arrays. */
  lemma {:induction false} OnlySkippedLines(lines: seq<string>)
    requires forall i :: 0 <= i < |lines| ==> IsSkipped(lines[i])
    ensures Parse(lines) == Empty
    decreases |lines|
  {
    if lines != [] {
      OnlySkippedLines(lines[..|lines| - 1]);
    }
  }

  /** A line spelled as a directive and its operands, with any white space
      around them and any non-empty runs of white space between them (tabs,
      several spaces, a trailing carriage return), classifies as that
      directive and those operands. */
  lemma ClassifySpelled(pre: string, d: string, ops: seq<string>, seps: seq<string>, post: string)
    requires d != [] && d[0] != '#' && ValidWords([d] + ops)
    requires Layout(pre, seps, post) && |seps| == |ops|
    ensures Classify(Spell(pre, [d] + ops, seps, post)) == Command(d, ops)
  {
    TrimWordsOfSpell(pre, [d] + ops, seps, post);
    JoinWithEdges([d] + ops, seps);
    assert ([d] + ops)[1..] == ops;
  }

  /** Between `before` and `after`, a triple that holds only positions adds
      them to the positions and nothing to the other arrays. */
  lemma AppendPositions(before: Arrays, after: Arrays, vals: seq<Num>)
    ensures var r := before.Append(Arrays([], vals, [])).Append(after);
            && r.positions == before.positions + vals + after.positions
            && r.indices == before.indices + after.indices
            && r.normals == before.normals + after.normals
  {
  }

  /** Between `before` and `after`, a triple that holds only normals adds
      them to the normals and nothing to the other arrays. */
  lemma AppendNormals(before: Arrays, after: Arrays, vals: seq<Num>)
    ensures var r := before.Append(Arrays([], [], vals)).Append(after);
            && r.normals == before.normals + vals + after.normals
            && r.indices == before.indices + after.indices
            && r.positions == before.positions + after.positions
  {
  }

  /** Between `before` and `after`, a triple that holds only indices adds
      them to the indices and nothing to the other arrays. */
  lemma AppendIndices(before: Arrays, after: Arrays, vals: seq<Num>)
    ensures var r := before.Append(Arrays(vals, [], [])).Append(after);
            && r.indices == before.indices + vals + after.indices
            && r.positions == before.positions + after.positions
            && r.normals == before.normals + after.normals
  {
  }

  /** Such a line appends what its directive appends for its operands. */
  lemma SpelledLineArrays(pre: string, d: string, ops: seq<string>, seps: seq<string>, post: string)
    requires d != [] && d[0] != '#' && ValidWords([d] + ops)
    requires Layout(pre, seps, post) && |seps| == |ops|
    ensures LineArrays(Spell(pre, [d] + ops, seps, post)) == DirectiveArrays(d, ops)
  {
    ClassifySpelled(pre, d, ops, seps, post);
  }

  /** A `v` line appends `parseFloat` of each operand, in order, then 1, to the positions only. */
  lemma VertexLineArrays(pre: string, ops: seq<string>, seps: seq<string>, post: string)
    requires ValidWords(ops) && Layout(pre, seps, post) && |seps| == |ops|
    ensures LineArrays(Spell(pre, ["v"] + ops, seps, post)) == Arrays([], ParseAll(ops) + [Finite(1.0)], [])
  {
    SpelledLineArrays(pre, "v", ops, seps, post);
  }

  /** A `vn` line appends `parseFloat` of each operand, in order, then 0, to the normals only. */
  lemma NormalLineArrays(pre: string, ops: seq<string>, seps: seq<string>, post: string)
    requires ValidWords(ops) && Layout(pre, seps, post) && |seps| == |ops|
    ensures LineArrays(Spell(pre, ["vn"] + ops, seps, post)) == Arrays([], [], ParseAll(ops) + [Finite(0.0)])
  {
    SpelledLineArrays(pre, "vn", ops, seps, post);
  }

  /** An `f` line appends `parseFloat` of each operand minus 1, in order, to the indices only. */
  lemma FaceLineArrays(pre: string, ops: seq<string>, seps: seq<string>, post: string)
    requires ValidWords(ops) && Layout(pre, seps, post) && |seps| == |ops|
    ensures LineArrays(Spell(pre, ["f"] + ops, seps, post)) == Arrays(Decrement(ParseAll(ops)), [], [])
  {
    SpelledLineArrays(pre, "f", ops, seps, post);
  }

  /** A `v` line with operands `ops`, spelled with any white space, appends
      `parseFloat` of each operand, in order, then 1 to the positions, and
      changes neither other array. */
  lemma VertexLine(a: seq<string>, pre: string, ops: seq<string>, seps: seq<string>, post: string, b: seq<string>)
    requires ValidWords(ops) && Layout(pre, seps, post) && |seps| == |ops|
    ensures var r := Parse(a + [Spell(pre, ["v"] + ops, seps, post)] + b);
            && r.positions == Parse(a).positions + (ParseAll(ops) + [Finite(1.0)]) + Parse(b).positions
            && r.indices == Parse(a).indices + Parse(b).indices
            && r.normals == Parse(a).normals + Parse(b).normals
  {
    VertexLineArrays(pre, ops, seps, post);
    ParseAround(a, Spell(pre, ["v"] + ops, seps, post), b);
    AppendPositions(Parse(a), Parse(b), ParseAll(ops) + [Finite(1.0)]);
  }

  /** A `vn` line with operands `ops`, spelled with any white space, appends
      `parseFloat` of each operand, in order, then 0 to the normals, and
      changes neither other array. */
  lemma NormalLine(a: seq<string>, pre: string, ops: seq<string>, seps: seq<string>, post: string, b: seq<string>)
    requires ValidWords(ops) && Layout(pre, seps, post) && |seps| == |ops|
    ensures var r := Parse(a + [Spell(pre, ["vn"] + ops, seps, post)] + b);
            && r.normals == Parse(a).normals + (ParseAll(ops) + [Finite(0.0)]) + Parse(b).normals
            && r.indices == Parse(a).indices + Parse(b).indices
            && r.positions == Parse(a).positions + Parse(b).positions
  {
    NormalLineArrays(pre, ops, seps, post);
    ParseAround(a, Spell(pre, ["vn"] + ops, seps, post), b);
    AppendNormals(Parse(a), Parse(b), ParseAll(ops) + [Finite(0.0)]);
  }

  /** An `f` line with operands `ops`, spelled with any white space, appends
      `parseFloat` of each operand minus 1, in order, to the indices, and
      changes neither other array. */
  lemma FaceLine(a: seq<string>, pre: string, ops: seq<string>, seps: seq<string>, post: string, b: seq<string>)
    requires ValidWords(ops) && Layout(pre, seps, post) && |seps| == |ops|
    ensures var r := Parse(a + [Spell(pre, ["f"] + ops, seps, post)] + b);
            && r.indices == Parse(a).indices + Decrement(ParseAll(ops)) + Parse(b).indices
            && r.positions == Parse(a).positions + Parse(b).positions
            && r.normals == Parse(a).normals + Parse(b).normals
  {
    FaceLineArrays(pre, ops, seps, post);
    ParseAround(a, Spell(pre, ["f"] + ops, seps, post), b);
    AppendIndices(Parse(a), Parse(b), Decrement(ParseAll(ops)));
  }

  /** The spelling of an integer is a single word. */
  lemma IntToStringIsWord(n: int)
    ensures IntToString(n) != [] && NoSpace(IntToString(n))
  {
    var s := NatToString(if n < 0 then -n else n);
    assert forall i :: 0 <= i < |s| ==> IsDigit(s[i]);
  }

  /** An integral value converts to its residue modulo 2^32. */
  lemma ToUint32OfIntegral(k: int)
    ensures ToUint32(Finite(k as real)) == k % Two32
  {
    assert Truncate(k as real) == k;
  }

  /** The line `f tok` appends `parseFloat(tok) - 1` to the indices. */
  lemma FaceLineValue(tok: string, v: Num)
    requires tok != [] && NoSpace(tok) && ParseFloat(tok) == v
    ensures Parse([JoinWords(["f", tok])]).indices == [v.Plus(-1.0)]
  {
    SingleFaceLine(tok);
    DecrementOne(tok);
  }

  /** The line `f tok` appends `parseFloat(tok) - 1` to the indices. */
  lemma SingleFaceLine(tok: string)
    requires tok != [] && NoSpace(tok)
    ensures Parse([JoinWords(["f", tok])]).indices == Decrement(ParseAll([tok]))
  {
    assert ValidWords([tok]);
    assert ["f"] + [tok] == ["f", tok];
    JoinWordsIsSpell(["f", tok]);
    FaceLineArrays([], [tok], Spaces(1), []);
    ParseSingle(JoinWords(["f", tok]));
  }

  /** One operand, parsed and decremented. */
  lemma DecrementOne(tok: string)
    ensures Decrement(ParseAll([tok])) == [ParseFloat(tok).Plus(-1.0)]
  {
  }

  /** A parsed index array holding the single integral value k is stored as
      k mod 2^32. */
  lemma StoredSingleIndex(data: seq<string>, center: Vec3, k: int)
    requires Parse(data).indices == [Finite(k as real)]
    ensures Create(data, center).indices == [k % Two32]
  {
    ToUint32OfIntegral(k);
  }

  /** A face line `f tok` whose operand reads as the integer k stores the
      index (k - 1) mod 2^32. */
  lemma FaceIndexOfToken(tok: string, k: int, center: Vec3)
    requires tok != [] && NoSpace(tok) && ParseFloat(tok) == Finite(k as real)
    ensures Create([JoinWords(["f", tok])], center).indices == [(k - 1) % Two32]
  {
    var data := [JoinWords(["f", tok])];
    FaceLineInteger(tok, k);
    StoredSingleIndex(data, center, k - 1);
  }

  /** The line `f tok`, whose operand reads as the integer k, appends k - 1 to the indices. */
  lemma FaceLineInteger(tok: string, k: int)
    requires tok != [] && NoSpace(tok) && ParseFloat(tok) == Finite(k as real)
    ensures Parse([JoinWords(["f", tok])]).indices == [Finite((k - 1) as real)]
  {
    FaceLineValue(tok, Finite(k as real));
    MinusOne(k);
  }

  /** An integral value minus 1. */
  lemma MinusOne(k: int)
    ensures Finite(k as real).Plus(-1.0) == Finite((k - 1) as real)
  {
  }

  /** The face line `f n` stores the index (n - 1) mod 2^32: 1-based indices
      in [1, 2^32] become n - 1, and `f 0` becomes 4294967295. */
  lemma FaceIndexStored(n: int, center: Vec3)
    ensures Create([JoinWords(["f", IntToString(n)])], center).indices == [(n - 1) % Two32]
    ensures 1 <= n <= Two32 ==> Create([JoinWords(["f", IntToString(n)])], center).indices == [n - 1]
    ensures n == 0 ==> Create([JoinWords(["f", IntToString(n)])], center).indices == [4294967295]
  {
    var idx := Create([JoinWords(["f", IntToString(n)])], center).indices;
    IntToStringIsWord(n);
    ParseFloatOfIntToString(n);
    FaceIndexOfToken(IntToString(n), n, center);
    assert idx == [(n - 1) % Two32];
    OneBasedWrap(n);
  }

  /** A 1-based index in [1, 2^32] minus 1 is its own residue, and 0 - 1
      wraps to 2^32 - 1. */
  lemma OneBasedWrap(n: int)
    ensures 1 <= n <= Two32 ==> (n - 1) % Two32 == n - 1
    ensures n == 0 ==> (n - 1) % Two32 == 4294967295
  {
  }

  /** The offset loop touches only x, y and z of the first four vertices: from
      the fifth vertex on, every position is the parsed value whatever the
      centre, so a mesh with more than four vertices is not translated as a
      whole. */
  lemma OnlyFirstFourVerticesMove(data: seq<string>, center: Vec3, k: nat)
    requires k < |Parse(data).positions|
    ensures 16 <= k ==> Create(data, center).positions[k] == Parse(data).positions[k]
    ensures k % 4 == 3 ==> Create(data, center).positions[k] == Parse(data).positions[k]
    ensures k < 16 && k % 4 != 3 ==> Create(data, center).positions[k] == Parse(data).positions[k].Plus(center.At(k % 4))
  {
  }

  /** With the origin as centre the positions are exactly the parsed values. */
  lemma OriginCenterKeepsPositions(data: seq<string>)
    ensures Create(data, Origin).positions == Parse(data).positions
  {
  }

  /** The offset pass as written is not a translation of the mesh: with a
      fifth vertex whose x is a number and a centre whose x is not 0, that
      x is left where the parse put it instead of moving with the centre. */
  lemma FifthVertexNotTranslated(data: seq<string>, center: Vec3)
    requires 16 < |Parse(data).positions| && Parse(data).positions[16].Finite? && center.x != 0.0
    ensures Create(data, center).positions[16] == Create(data, Origin).positions[16]
    ensures Create(data, center).positions[16] != Create(data, Origin).positions[16].Plus(center.x)
  {
  }

  /** With the offset applied to every vertex, the mesh built around any
      centre is the mesh built around the origin moved by that centre: x, y
      and z of each vertex shift by the centre's components, w stays. */
  lemma TranslationProperty(data: seq<string>, center: Vec3, k: nat)
    requires k < |Parse(data).positions|
    ensures k % 4 != 3 ==> CreateTranslated(data, center).positions[k]
                           == CreateTranslated(data, Origin).positions[k].Plus(center.At(k % 4))
    ensures k % 4 == 3 ==> CreateTranslated(data, center).positions[k] == CreateTranslated(data, Origin).positions[k]
  {
  }

  /** On meshes of at most four vertices the corrected pass and the pass as
      written build the same mesh. */
  lemma TranslatedAgreesOnSmallMeshes(data: seq<string>, center: Vec3)
    requires |Parse(data).positions| <= 16
    ensures CreateTranslated(data, center) == Create(data, center)
  {
  }

  /** The values a directive appends for three operands. */
  lemma ThreeOperands(d: string, x: string, y: string, z: string)
    ensures var vx, vy, vz := ParseFloat(x), ParseFloat(y), ParseFloat(z);
            && (d == "v" ==> DirectiveArrays(d, [x, y, z]) == Arrays([], [vx, vy, vz, Finite(1.0)], []))
            && (d == "vn" ==> DirectiveArrays(d, [x, y, z]) == Arrays([], [], [vx, vy, vz, Finite(0.0)]))
            && (d == "f" ==> DirectiveArrays(d, [x, y, z]) == Arrays([vx.Plus(-1.0), vy.Plus(-1.0), vz.Plus(-1.0)], [], []))
  {
    if d == "v" {
      VertexThree(x, y, z);
    } else if d == "vn" {
      NormalThree(x, y, z);
    } else if d == "f" {
      FaceThree(x, y, z);
    }
  }

  /** A `v` directive with three operands appends their values and 1 to the positions. */
  lemma VertexThree(x: string, y: string, z: string)
    ensures DirectiveArrays("v", [x, y, z]) == Arrays([], [ParseFloat(x), ParseFloat(y), ParseFloat(z), Finite(1.0)], [])
  {
    ParseAllThree(x, y, z);
  }

  /** A `vn` directive with three operands appends their values and 0 to the normals. */
  lemma NormalThree(x: string, y: string, z: string)
    ensures DirectiveArrays("vn", [x, y, z]) == Arrays([], [], [ParseFloat(x), ParseFloat(y), ParseFloat(z), Finite(0.0)])
  {
    ParseAllThree(x, y, z);
  }

  /** An `f` directive with three operands appends their values minus 1 to the indices. */
  lemma FaceThree(x: string, y: string, z: string)
    ensures DirectiveArrays("f", [x, y, z])
         == Arrays([ParseFloat(x).Plus(-1.0), ParseFloat(y).Plus(-1.0), ParseFloat(z).Plus(-1.0)], [], [])
  {
    ParseAllThree(x, y, z);
    DecrementThree(ParseFloat(x), ParseFloat(y), ParseFloat(z));
  }

  /** Subtracting 1 from three values, in order. */
  lemma DecrementThree(a: Num, b: Num, c: Num)
    ensures Decrement([a, b, c]) == [a.Plus(-1.0), b.Plus(-1.0), c.Plus(-1.0)]
  {
  }

  /** `parseFloat` of three operands, in order. */
  lemma ParseAllThree(x: string, y: string, z: string)
    ensures ParseAll([x, y, z]) == [ParseFloat(x), ParseFloat(y), ParseFloat(z)]
  {
  }

  /** The value a run of digits reads as. */
  function DigitsNum(x: string): Num
    requires AllDigits(x)
  {
    Finite(DigitsValue(x) as real)
  }

  /** A line written as a directive and its operands joined by single spaces
      appends what the directive appends for those operands. */
  lemma JoinedLine(d: string, ops: seq<string>)
    requires d != [] && d[0] != '#' && ValidWords([d] + ops)
    ensures LineArrays(JoinWords([d] + ops)) == DirectiveArrays(d, ops)
  {
    JoinWordsIsSpell([d] + ops);
    SpelledLineArrays([], d, ops, Spaces(|ops|), []);
  }

  /** Three runs of digits are three words. */
  lemma DigitsAreWords(x: string, y: string, z: string)
    requires x != [] && y != [] && z != [] && AllDigits(x) && AllDigits(y) && AllDigits(z)
    ensures ValidWords([x, y, z])
  {
    assert NoSpace(x) && NoSpace(y) && NoSpace(z);
  }

  /** Three runs of digits parse to their values. */
  lemma ParseDigitsThree(x: string, y: string, z: string)
    requires x != [] && y != [] && z != [] && AllDigits(x) && AllDigits(y) && AllDigits(z)
    ensures ParseAll([x, y, z]) == [DigitsNum(x), DigitsNum(y), DigitsNum(z)]
  {
    ParseAllThree(x, y, z);
    ParseFloatOfDigits(x);
    ParseFloatOfDigits(y);
    ParseFloatOfDigits(z);
  }

  /** `v x y z` with digit operands appends their values and 1 to the positions. */
  lemma DigitsVertexLine(x: string, y: string, z: string)
    requires x != [] && y != [] && z != [] && AllDigits(x) && AllDigits(y) && AllDigits(z)
    ensures LineArrays(JoinWords(["v", x, y, z])) == Arrays([], [DigitsNum(x), DigitsNum(y), DigitsNum(z), Finite(1.0)], [])
  {
    var ops := [x, y, z];
    DigitsAreWords(x, y, z);
    assert ["v", x, y, z] == ["v"] + ops;
    JoinedLine("v", ops);
    ParseDigitsThree(x, y, z);
  }

  /** `vn x y z` with digit operands appends their values and 0 to the normals. */
  lemma DigitsNormalLine(x: string, y: string, z: string)
    requires x != [] && y != [] && z != [] && AllDigits(x) && AllDigits(y) && AllDigits(z)
    ensures LineArrays(JoinWords(["vn", x, y, z])) == Arrays([], [], [DigitsNum(x), DigitsNum(y), DigitsNum(z), Finite(0.0)])
  {
    var ops := [x, y, z];
    DigitsAreWords(x, y, z);
    assert ["vn", x, y, z] == ["vn"] + ops;
    JoinedLine("vn", ops);
    ParseDigitsThree(x, y, z);
  }

  /** `f x y z` with digit operands appends their values minus 1 to the indices. */
  lemma DigitsFaceLine(x: string, y: string, z: string)
    requires x != [] && y != [] && z != [] && AllDigits(x) && AllDigits(y) && AllDigits(z)
    ensures LineArrays(JoinWords(["f", x, y, z]))
         == Arrays([DigitsNum(x).Plus(-1.0), DigitsNum(y).Plus(-1.0), DigitsNum(z).Plus(-1.0)], [], [])
  {
    var ops := [x, y, z];
    DigitsAreWords(x, y, z);
    assert ["f", x, y, z] == ["f"] + ops;
    JoinedLine("f", ops);
    ParseDigitsThree(x, y, z);
    DecrementThree(DigitsNum(x), DigitsNum(y), DigitsNum(z));
  }

  /** The example file with the numbers 0, 1, 2 and 3 spelled as any runs of
      digits that read as them. */
  lemma DigitFile(x0: string, x1: string, x2: string, x3: string)
    requires x0 != [] && x1 != [] && x2 != [] && x3 != []
    requires AllDigits(x0) && AllDigits(x1) && AllDigits(x2) && AllDigits(x3)
    requires DigitsValue(x0) == 0 && DigitsValue(x1) == 1 && DigitsValue(x2) == 2 && DigitsValue(x3) == 3
    ensures Create([JoinWords(["v", x0, x0, x0]), JoinWords(["v", x1, x0, x0]), JoinWords(["v", x0, x1, x0]),
                    JoinWords(["vn", x0, x0, x1]), JoinWords(["f", x1, x2, x3])], Origin)
         == Mesh([0, 1, 2],
                 [Finite(0.0), Finite(0.0), Finite(0.0), Finite(1.0),
                  Finite(1.0), Finite(0.0), Finite(0.0), Finite(1.0),
                  Finite(0.0), Finite(1.0), Finite(0.0), Finite(1.0)],
                 [Finite(0.0), Finite(0.0), Finite(1.0), Finite(0.0)],
                 3)
  {
    var l1, l2, l3 := JoinWords(["v", x0, x0, x0]), JoinWords(["v", x1, x0, x0]), JoinWords(["v", x0, x1, x0]);
    var l4, l5 := JoinWords(["vn", x0, x0, x1]), JoinWords(["f", x1, x2, x3]);
    DigitsVertexLine(x0, x0, x0);
    DigitsVertexLine(x1, x0, x0);
    DigitsVertexLine(x0, x1, x0);
    DigitsNormalLine(x0, x0, x1);
    DigitsFaceLine(x1, x2, x3);
    SampleParse(l1, l2, l3, l4, l5);
    SampleCreate([l1, l2, l3, l4, l5]);
  }

  /** The example file: three vertices, one normal and one triangle, read
      with the origin as centre. */
  lemma SampleFile()
    ensures Create(["v 0 0 0", "v 1 0 0", "v 0 1 0", "vn 0 0 1", "f 1 2 3"], Origin)
         == Mesh([0, 1, 2],
                 [Finite(0.0), Finite(0.0), Finite(0.0), Finite(1.0),
                  Finite(1.0), Finite(0.0), Finite(0.0), Finite(1.0),
                  Finite(0.0), Finite(1.0), Finite(0.0), Finite(1.0)],
                 [Finite(0.0), Finite(0.0), Finite(1.0), Finite(0.0)],
                 3)
  {
    DigitFile("0", "1", "2", "3");
    SampleLines();
  }

  /** The example file's lines are the words of each joined by single spaces. */
  lemma SampleLines()
    ensures ["v 0 0 0", "v 1 0 0", "v 0 1 0", "vn 0 0 1", "f 1 2 3"]
         == [JoinWords(["v", "0", "0", "0"]), JoinWords(["v", "1", "0", "0"]), JoinWords(["v", "0", "1", "0"]),
             JoinWords(["vn", "0", "0", "1"]), JoinWords(["f", "1", "2", "3"])]
  {
    JoinFour("v", "0", "0", "0");
    JoinFour("v", "1", "0", "0");
    JoinFour("v", "0", "1", "0");
    JoinFour("vn", "0", "0", "1");
    JoinFour("f", "1", "2", "3");
    assert "v" + " " + "0" + " " + "0" + " " + "0" == "v 0 0 0";
    assert "v" + " " + "1" + " " + "0" + " " + "0" == "v 1 0 0";
    assert "v" + " " + "0" + " " + "1" + " " + "0" == "v 0 1 0";
    assert "vn" + " " + "0" + " " + "0" + " " + "1" == "vn 0 0 1";
    assert "f" + " " + "1" + " " + "2" + " " + "3" == "f 1 2 3";
  }

  /** Four words joined by single spaces. */
  lemma JoinFour(a: string, b: string, c: string, d: string)
    ensures JoinWords([a, b, c, d]) == a + " " + b + " " + c + " " + d
  {
    assert [a, b, c, d][1..] == [b, c, d];
    assert [b, c, d][1..] == [c, d];
    assert [c, d][1..] == [d];
    assert JoinWords([c, d]) == c + " " + d;
    assert JoinWords([b, c, d]) == b + " " + (c + " " + d) == b + " " + c + " " + d;
    assert JoinWords([a, b, c, d]) == a + " " + (b + " " + c + " " + d);
  }


  /** The arrays parsed from five lines that append what the lines of the
      sample file append. */
  lemma SampleParse(l1: string, l2: string, l3: string, l4: string, l5: string)
    requires LineArrays(l1) == Arrays([], [Finite(0.0), Finite(0.0), Finite(0.0), Finite(1.0)], [])
    requires LineArrays(l2) == Arrays([], [Finite(1.0), Finite(0.0), Finite(0.0), Finite(1.0)], [])
    requires LineArrays(l3) == Arrays([], [Finite(0.0), Finite(1.0), Finite(0.0), Finite(1.0)], [])
    requires LineArrays(l4) == Arrays([], [], [Finite(0.0), Finite(0.0), Finite(1.0), Finite(0.0)])
    requires LineArrays(l5) == Arrays([Finite(0.0), Finite(1.0), Finite(2.0)], [], [])
    ensures Parse([l1, l2, l3, l4, l5])
         == Arrays([Finite(0.0), Finite(1.0), Finite(2.0)],
                   [Finite(0.0), Finite(0.0), Finite(0.0), Finite(1.0),
                    Finite(1.0), Finite(0.0), Finite(0.0), Finite(1.0),
                    Finite(0.0), Finite(1.0), Finite(0.0), Finite(1.0)],
                   [Finite(0.0), Finite(0.0), Finite(1.0), Finite(0.0)])
  {
    SampleScan(l1, l2, l3, l4, l5, LineArrays);
  }

  /** Scanning five lines whose steps give the sample file's contributions. */
  lemma SampleScan(l1: string, l2: string, l3: string, l4: string, l5: string, step: string -> Arrays)
    requires step(l1) == Arrays([], [Finite(0.0), Finite(0.0), Finite(0.0), Finite(1.0)], [])
    requires step(l2) == Arrays([], [Finite(1.0), Finite(0.0), Finite(0.0), Finite(1.0)], [])
    requires step(l3) == Arrays([], [Finite(0.0), Finite(1.0), Finite(0.0), Finite(1.0)], [])
    requires step(l4) == Arrays([], [], [Finite(0.0), Finite(0.0), Finite(1.0), Finite(0.0)])
    requires step(l5) == Arrays([Finite(0.0), Finite(1.0), Finite(2.0)], [], [])
    ensures ForEachLine([l1, l2, l3, l4, l5], step)
         == Arrays([Finite(0.0), Finite(1.0), Finite(2.0)],
                   [Finite(0.0), Finite(0.0), Finite(0.0), Finite(1.0),
                    Finite(1.0), Finite(0.0), Finite(0.0), Finite(1.0),
                    Finite(0.0), Finite(1.0), Finite(0.0), Finite(1.0)],
                   [Finite(0.0), Finite(0.0), Finite(1.0), Finite(0.0)])
  {
    ForEachLineFive(l1, l2, l3, l4, l5, step);
  }

  /** Scanning five lines appends what each of them gives, in order. */
  lemma ForEachLineFive(l1: string, l2: string, l3: string, l4: string, l5: string, step: string -> Arrays)
    ensures ForEachLine([l1, l2, l3, l4, l5], step)
         == step(l1).Append(step(l2)).Append(step(l3)).Append(step(l4)).Append(step(l5))
  {
    assert [l1, l2, l3, l4, l5][..4] == [l1, l2, l3, l4];
    assert [l1, l2, l3, l4][..3] == [l1, l2, l3];
    assert [l1, l2, l3][..2] == [l1, l2];
    assert [l1, l2][..1] == [l1];
    assert [l1][..0] == [];
    assert ForEachLine([l1], step) == Empty.Append(step(l1)) == step(l1);
    assert ForEachLine([l1, l2], step) == ForEachLine([l1], step).Append(step(l2));
    assert ForEachLine([l1, l2, l3], step) == ForEachLine([l1, l2], step).Append(step(l3));
    assert ForEachLine([l1, l2, l3, l4], step) == ForEachLine([l1, l2, l3], step).Append(step(l4));
  }

  /** The sample's three index values convert to 0, 1 and 2. */
  lemma SampleIndices(vs: seq<Num>)
    requires vs == [Finite(0.0), Finite(1.0), Finite(2.0)]
    ensures |vs| == 3 && ToUint32(vs[0]) == 0 && ToUint32(vs[1]) == 1 && ToUint32(vs[2]) == 2
  {
    ToUint32OfIntegral(0);
    ToUint32OfIntegral(1);
    ToUint32OfIntegral(2);
  }

  /** A three-element sequence given element by element. */
  lemma FirstThreeNaturals(r: seq<nat>)
    requires |r| == 3 && r[0] == 0 && r[1] == 1 && r[2] == 2
    ensures r == [0, 1, 2]
  {
  }

  /** The upload of the sample file's parsed arrays with the origin as centre. */
  lemma SampleCreate(data: seq<string>)
    requires Parse(data)
          == Arrays([Finite(0.0), Finite(1.0), Finite(2.0)],
                    [Finite(0.0), Finite(0.0), Finite(0.0), Finite(1.0),
                     Finite(1.0), Finite(0.0), Finite(0.0), Finite(1.0),
                     Finite(0.0), Finite(1.0), Finite(0.0), Finite(1.0)],
                    [Finite(0.0), Finite(0.0), Finite(1.0), Finite(0.0)])
    ensures Create(data, Origin)
         == Mesh([0, 1, 2],
                 [Finite(0.0), Finite(0.0), Finite(0.0), Finite(1.0),
                  Finite(1.0), Finite(0.0), Finite(0.0), Finite(1.0),
                  Finite(0.0), Finite(1.0), Finite(0.0), Finite(1.0)],
                 [Finite(0.0), Finite(0.0), Finite(1.0), Finite(0.0)],
                 3)
  {
    var a, m := Parse(data), Create(data, Origin);
    SampleIndices(a.indices);
    assert m.indices[0] == ToUint32(a.indices[0]) == 0;
    assert m.indices[1] == ToUint32(a.indices[1]) == 1;
    assert m.indices[2] == ToUint32(a.indices[2]) == 2;
    FirstThreeNaturals(m.indices);
    assert m.positions == a.positions;
  }
}
