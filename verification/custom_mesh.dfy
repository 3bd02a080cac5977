/**
  The mesh-text parser (`CustomMesh.create`): a fold over the text lines that
  fills three number arrays, their conversion to typed arrays, the centre
  offset pass over the positions, and the draw count.
 */
module CustomMesh {
  import opened Text
  import opened Numbers
  import opened Drawable

  /** The three `number[]` arrays that `create()` grows while it scans the lines. */
  datatype Arrays = Arrays(indices: seq<Num>, positions: seq<Num>, normals: seq<Num>) {

    /** Array-by-array concatenation. */
    function Append(other: Arrays): Arrays
    {
      Arrays(indices + other.indices, positions + other.positions, normals + other.normals)
    }
  }

  const Empty: Arrays := Arrays([], [], [])

  /** A classified input line: skipped (blank or comment), or a directive with
      its operand tokens. */
  datatype Line = Skipped | Command(directive: string, operands: seq<string>)

  /** A line that is empty once trimmed, or whose trimmed form starts with `#`. */
  predicate IsSkipped(line: string) {
    var t := Trim(line);
    t == [] || t[0] == '#'
  }

  /** Trims the line, drops blanks and comments, and splits the rest on runs of
      white space into a directive and its operands (`Words` is characterised
      by `WordsSkipsSpace`, `WordThenSpace` and `WordsOfSpace`). */
  function Classify(line: string): (l: Line)
    ensures l.Skipped? <==> IsSkipped(line)
    ensures l.Command? ==> [l.directive] + l.operands == Words(Trim(line))
    ensures l.Command? ==> l.directive != [] && Trim(line) != [] && l.directive[0] == Trim(line)[0] != '#'
  {
    var t := Trim(line);
    if t == [] || t[0] == '#' then Skipped
    else
      var parts := Words(t);
      Command(parts[0], parts[1..])
  }

  /** `parts.slice(1).map(x => parseFloat(x))`. */
  function ParseAll(tokens: seq<string>): (vs: seq<Num>)
    ensures |vs| == |tokens|
    ensures forall i :: 0 <= i < |tokens| ==> vs[i] == ParseFloat(tokens[i])
  {
    seq(|tokens|, i requires 0 <= i < |tokens| => ParseFloat(tokens[i]))
  }

  /** `values.map(x => x - 1)`: one-based file indices to zero-based ones. */
  function Decrement(vs: seq<Num>): (ws: seq<Num>)
    ensures |ws| == |vs|
    ensures forall i :: 0 <= i < |vs| ==> ws[i] == vs[i].Plus(-1.0)
  {
    seq(|vs|, i requires 0 <= i < |vs| => vs[i].Plus(-1.0))
  }

  /** What a directive with its operand tokens appends to each of the three
      arrays: `v` and `vn` append the values and then the w component, `f`
      appends the values minus 1, and any other directive nothing. */
  function DirectiveArrays(d: string, ops: seq<string>): (r: Arrays)
    ensures r.indices == [] || (r.positions == [] && r.normals == [])
    ensures r.positions == [] || r.normals == []
    ensures d != "v" && d != "vn" && d != "f" ==> r == Empty
  {
    var values := ParseAll(ops);
    if d == "v" then Arrays([], values + [Finite(1.0)], [])
    else if d == "vn" then Arrays([], [], values + [Finite(0.0)])
    else if d == "f" then Arrays(Decrement(values), [], [])
    else Empty
  }

  /** What one line appends to each of the three arrays. */
  function LineArrays(line: string): (r: Arrays)
    ensures IsSkipped(line) ==> r == Empty
    ensures r.indices == [] || (r.positions == [] && r.normals == [])
    ensures r.positions == [] || r.normals == []
  {
    match Classify(line)
    case Skipped => Empty
    case Command(d, ops) => DirectiveArrays(d, ops)
  }

  /** `lines.forEach(step)`, where each call appends what `step` gives for its
      line to the three arrays: the arrays after the last line. */
  function ForEachLine(lines: seq<string>, step: string -> Arrays): (r: Arrays)
    ensures |lines| == 1 ==> r == step(lines[0])
  {
    if lines == [] then Empty
    else ForEachLine(lines[..|lines| - 1], step).Append(step(lines[|lines| - 1]))
  }

  /** The scan over the data lines, first to last. */
  function Parse(lines: seq<string>): (a: Arrays)
    ensures |lines| == 1 ==> a == LineArrays(lines[0])
  {
    ForEachLine(lines, LineArrays)
  }

  /** The slots the offset pass writes: x, y and z of the first four vertices. */
  predicate IsOffsetSlot(k: nat) {
    k < 16 && k % 4 != 3
  }

  /** The positions after the offset pass: every slot the pass writes and the
      array has gets `center[k % 4]` added, every other slot is as parsed. */
  function Centered(ps: seq<Num>, center: Vec3): (r: seq<Num>)
    ensures |r| == |ps|
    ensures forall k :: 0 <= k < |ps| && !IsOffsetSlot(k) ==> r[k] == ps[k]
    ensures forall k :: 0 <= k < |ps| && IsOffsetSlot(k) ==> r[k] == ps[k].Plus(center.At(k % 4))
    ensures center == Origin ==> r == ps
  {
    seq(|ps|, k requires 0 <= k < |ps| => if IsOffsetSlot(k) then ps[k].Plus(center.At(k % 4)) else ps[k])
  }

  /** The offset pass as the source writes it: for i < 4 and j < 4 with
      j != 3, `positions[4 * i + j] += center[j]`, where a write past the end
      of the typed array does nothing. */
  method OffsetFirstFour(ps: seq<Num>, center: Vec3) returns (out: seq<Num>)
    ensures out == Centered(ps, center)
  {
    out := ps;
    var i := 0;
    while i < 4
      invariant 0 <= i <= 4
      invariant |out| == |ps|
      invariant forall k :: 0 <= k < |ps| ==>
                  out[k] == if k < 4 * i && IsOffsetSlot(k) then ps[k].Plus(center.At(k % 4)) else ps[k]
    {
      var j := 0;
      while j < 4
        invariant 0 <= j <= 4
        invariant |out| == |ps|
        invariant forall k :: 0 <= k < |ps| ==>
                    out[k] == if (k < 4 * i || (4 * i <= k < 4 * i + j)) && IsOffsetSlot(k)
                              then ps[k].Plus(center.At(k % 4)) else ps[k]
      {
        var slot := 4 * i + j;
        if j != 3 && slot < |out| {
          out := out[slot := out[slot].Plus(center.At(j))];
        }
        j := j + 1;
      }
      i := i + 1;
    }
  }

  /** `new Uint32Array(indices)`. */
  function ToIndexArray(vs: seq<Num>): (r: seq<nat>)
    ensures |r| == |vs|
    ensures forall i :: 0 <= i < |vs| ==> r[i] == ToUint32(vs[i]) < Two32
  {
    seq(|vs|, i requires 0 <= i < |vs| => ToUint32(vs[i]))
  }

  /** `create()`: parse the lines, convert to typed arrays, offset the first
      four vertices by the centre, and upload with the index count as the
      draw count. */
  function Create(data: seq<string>, center: Vec3): (m: Mesh<Num>)
    ensures var a := Parse(data);
            && m.count == |m.indices| == |a.indices|
            && (forall i :: 0 <= i < |a.indices| ==> m.indices[i] == ToUint32(a.indices[i]))
            && m.normals == a.normals
            && m.positions == Centered(a.positions, center)
  {
    var a := Parse(data);
    Upload(ToIndexArray(a.indices), Centered(a.positions, center), a.normals)
  }

  /** The positions after a translation of every vertex by the centre: x, y
      and z of every vertex get the centre added, w is left alone. On at most four
      vertices this is the pass as written. */
  function TranslateAll(ps: seq<Num>, center: Vec3): (r: seq<Num>)
    ensures |r| == |ps|
    ensures forall k :: 0 <= k < |ps| && k % 4 == 3 ==> r[k] == ps[k]
    ensures |ps| <= 16 ==> r == Centered(ps, center)
  {
    seq(|ps|, k requires 0 <= k < |ps| => if k % 4 != 3 then ps[k].Plus(center.At(k % 4)) else ps[k])
  }

  /** The offset pass over every vertex, one slot at a time. */
  method OffsetAllVertices(ps: seq<Num>, center: Vec3) returns (out: seq<Num>)
    ensures out == TranslateAll(ps, center)
  {
    out := ps;
    var k := 0;
    while k < |ps|
      invariant 0 <= k <= |ps|
      invariant |out| == |ps|
      invariant forall i :: 0 <= i < k ==> out[i] == if i % 4 != 3 then ps[i].Plus(center.At(i % 4)) else ps[i]
      invariant forall i :: k <= i < |ps| ==> out[i] == ps[i]
    {
      if k % 4 != 3 {
        out := out[k := out[k].Plus(center.At(k % 4))];
      }
      k := k + 1;
    }
  }

  /** `create()` with the offset pass applied to every vertex. */
  function CreateTranslated(data: seq<string>, center: Vec3): (m: Mesh<Num>)
    ensures var a := Parse(data);
            && m.indices == Create(data, center).indices
            && m.normals == a.normals
            && m.count == |m.indices|
            && m.positions == TranslateAll(a.positions, center)
  {
    var a := Parse(data);
    Upload(ToIndexArray(a.indices), TranslateAll(a.positions, center), a.normals)
  }
}
