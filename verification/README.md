# Mesh geometry of the fireball demo, in Dafny

The demo draws two kinds of triangle mesh:
- **`CustomMesh`** parses a simplified mesh text format.
- **`Cube`** emits a fixed 24-vertex cube.

Each one's `create()` fills an index array (`Uint32Array`), a position array and a normal array (`Float32Array`). Positions and normals are flat x, y, z, w quadruples. `create()` then sets the draw count to the number of indices and uploads the arrays.

The model has five modules:

- **`Text`**: ECMAScript white space, `trim()`, and the split of a trimmed line on `/\s+/g`. A line is described by its words, the non-empty runs of white space between them (tabs, several spaces) and any white space before and after (a trailing carriage return, say). Trim-then-split of such a line gives back exactly its words.
- **`Numbers`** defines the following:
  - JavaScript numbers as exact reals plus NaN and the two infinities.
  - The global `parseFloat` on a token.
  - The `ToUint32` conversion a `Uint32Array` applies to each element.
  - The decimal spelling of integers.
  - `Num.Plus`, the addition of a finite number, which models both `x - 1` on face indices (src/geometry/CustomMesh.ts:44) and the `+=` of the centre offset (src/geometry/CustomMesh.ts:62).
- **`Drawable`**: the constructor's centre, the record of what `create()` uploads (`Mesh`), and the upload step that sets the draw count (`Upload`).
- **`CustomMesh`** models the parser's `create()`:
  - the fold over the lines (`Parse`, built on `ForEachLine`), one step per line (`LineArrays`);
  - the typed-array conversion of the indices (`ToIndexArray`);
  - the centre offset pass, as written (`Centered`, `OffsetFirstFour`);
  - the draw count (`Create`).

  `CustomMeshProperties` holds the lemmas about the parser.
- **`Cube`**: the literal arrays of `Cube.create` and their geometry. The geometry covers index range, face fans, normals, corners, outward winding and the number of vertices per corner.

## Model

| member | source | states |
|---|---|---|
| `Text.Trim` | src/geometry/CustomMesh.ts:26 | the trimmed line is the slice of the input between its leading and trailing white space; everything cut off is white space, and the result neither starts nor ends with white space |
| `Text.TrimIdempotent` | src/geometry/CustomMesh.ts:26 | trimming an already trimmed line changes nothing |
| `Text.Words` | src/geometry/CustomMesh.ts:29 | every word of the split is non-empty and holds no white space; a line starting with a non-space character has its leading word first; a line with no space is one word |
| `Text.WordsSkipsSpace` | src/geometry/CustomMesh.ts:29 | white space in front of the text, of any length and kind, adds no word to the split |
| `Text.WordThenSpace` | src/geometry/CustomMesh.ts:29 | a word followed by a non-empty run of white space is split off as the first word, and the split goes on after the run |
| `Text.WordsOfSpace` | src/geometry/CustomMesh.ts:29 | a run of white space alone holds no words |
| `Text.WordsOfJoinWith` | src/geometry/CustomMesh.ts:29 | splitting words joined by any non-empty runs of white space gives back exactly those words (round trip) |
| `Text.TrimStartPadded` | src/geometry/CustomMesh.ts:26 | in front of text starting with a non-space character, the leading white space is exactly what the start trim removes |
| `Text.TrimEndPadded` | src/geometry/CustomMesh.ts:26 | after text ending with a non-space character, the trailing white space is exactly what the end trim removes |
| `Text.TrimPadded` | src/geometry/CustomMesh.ts:26 | trimming text that neither starts nor ends with white space, padded with any white space on both sides, gives back the text |
| `Text.TrimWordsOfSpell` | src/geometry/CustomMesh.ts:26-29 | trim-then-split of a line spelled as words with any white-space separators and padding gives back exactly the words |
| `Text.JoinWordsIsSpell` | src/geometry/CustomMesh.ts:29 | joining with single spaces is the special case of that spelling with one-space separators and no padding |
| `Numbers.ParseFloat` | src/geometry/CustomMesh.ts:30 | `parseFloat` gives NaN exactly when the token, after its sign, starts with neither a decimal literal nor `Infinity`; a token starting with a digit gives a finite non-negative value |
| `Numbers.ParseFloatOfIntToString` | src/geometry/CustomMesh.ts:30 | `parseFloat` reads back every integer from its decimal spelling, negative ones included |
| `Numbers.ParseFloatOfDigits` | src/geometry/CustomMesh.ts:30 | `parseFloat` of a run of digits is the value of those digits |
| `Numbers.Truncate` | src/geometry/CustomMesh.ts:52 | rounding toward zero: the result is within 1 of the input, on the side of zero |
| `Numbers.ToUint32` | src/geometry/CustomMesh.ts:52 | a stored index is in [0, 2^32); NaN and infinities store 0; a finite value stores its truncation reduced modulo 2^32 |
| `Numbers.ToUint32OfIntegers` | src/geometry/CustomMesh.ts:52 | integral values in [0, 2^32) are stored unchanged and -1 is stored as 2^32 - 1 |
| `CustomMesh.Classify` | src/geometry/CustomMesh.ts:26-29 | a line is skipped exactly when it is blank or a comment once trimmed; otherwise the directive followed by the operands is exactly the split of the trimmed line, and the directive begins with the first character of the trimmed line, which is not `#` |
| `CustomMesh.ParseAll` | src/geometry/CustomMesh.ts:30 | one value per operand, in order, each `parseFloat` of its token |
| `CustomMesh.Decrement` | src/geometry/CustomMesh.ts:44 | one value per input, each 1 less (non-finite values stay as they are) |
| `CustomMesh.DirectiveArrays` | src/geometry/CustomMesh.ts:32-47 | a directive feeds at most one of the three arrays, and a directive other than `v`, `vn` or `f` feeds none |
| `CustomMesh.LineArrays` | src/geometry/CustomMesh.ts:25-48 | a blank or comment line appends nothing, and no line appends to more than one array |
| `CustomMesh.ForEachLine` | src/geometry/CustomMesh.ts:25-50 | a one-line scan gives exactly what the step gives for that line |
| `CustomMesh.Parse` | src/geometry/CustomMesh.ts:21-50 | a one-line input gives exactly that line's contribution |
| `CustomMesh.Centered` | src/geometry/CustomMesh.ts:60-64 | the offset pass adds `center[k % 4]` to exactly the x, y, z slots of the first four vertices that exist; every other slot is unchanged; with the origin as centre nothing changes |
| `CustomMesh.OffsetFirstFour` | src/geometry/CustomMesh.ts:60-64 | the nested loop of the source, with writes past the end of the typed array ignored, computes exactly `Centered` |
| `CustomMesh.ToIndexArray` | src/geometry/CustomMesh.ts:52 | one stored index per parsed index, each its `ToUint32` conversion and below 2^32 |
| `CustomMesh.Create` | src/geometry/CustomMesh.ts:20-66 | the draw count equals the number of indices, which equals the number of parsed `f` values; each index is stored via `ToUint32`; normals are as parsed; positions are the parsed ones after the offset pass |
| `Drawable.Upload` | src/geometry/CustomMesh.ts:66-75 | the draw count is the length of the index array, and the arrays are uploaded as given (the cube's upload, src/geometry/Cube.ts:102, is the same step) |
| `CustomMesh.TranslateAll` | src/geometry/CustomMesh.ts:60-64 | corrected offset pass: w slots are never moved, and on meshes of at most four vertices it agrees with the pass as written |
| `CustomMesh.OffsetAllVertices` | src/geometry/CustomMesh.ts:60-64 | a loop over every slot computes the corrected pass `TranslateAll` |
| `CustomMesh.CreateTranslated` | src/geometry/CustomMesh.ts:20-66 | `create()` with the corrected pass: same indices as `Create`, normals as parsed, count equal to the number of indices, positions translated as a whole |
| `CustomMeshProperties.ForEachLineConcat` | src/geometry/CustomMesh.ts:25-50 | the per-line scan is a homomorphism: scanning `a + b` is scanning `a`, then appending the scan of `b`, array by array |
| `CustomMeshProperties.ParseConcat` | src/geometry/CustomMesh.ts:21-50 | parsing concatenated line lists concatenates the three arrays |
| `CustomMeshProperties.EmptyInput` | src/geometry/CustomMesh.ts:21-66 | no lines gives three empty arrays and a draw count of 0 |
| `CustomMeshProperties.ForEachLineAround` | src/geometry/CustomMesh.ts:25-50 | a line's contribution sits between those of the lines before and after it |
| `CustomMeshProperties.ParseSingle` | src/geometry/CustomMesh.ts:25-50 | a one-line input produces exactly that line's contribution |
| `CustomMeshProperties.ParseAround` | src/geometry/CustomMesh.ts:25-50 | parsing `a`, a line, then `b` puts the line's values between those of `a` and of `b` in each array |
| `CustomMeshProperties.ForEachLineInsertInert` | src/geometry/CustomMesh.ts:25-50 | for any step, inserting a line the step ignores anywhere leaves the scan unchanged |
| `CustomMeshProperties.InsertInertLine` | src/geometry/CustomMesh.ts:25-50 | inserting a line that appends nothing anywhere leaves the arrays unchanged |
| `CustomMeshProperties.SkippedLineIgnored` | src/geometry/CustomMesh.ts:26-28 | inserting a blank or comment line anywhere leaves all three arrays unchanged |
| `CustomMeshProperties.UnknownDirectiveIgnored` | src/geometry/CustomMesh.ts:32-47 | inserting a line whose directive is not `v`, `vn` or `f` anywhere leaves all three arrays unchanged |
| `CustomMeshProperties.NonSkipped` | src/geometry/CustomMesh.ts:28 | the kept lines are exactly the input lines that are neither blank nor comments; none is dropped when the input has no such line |
| `CustomMeshProperties.DropSkippedLines` | src/geometry/CustomMesh.ts:26-28 | removing every blank and comment line from the input does not change the result |
| `CustomMeshProperties.OnlySkippedLines` | src/geometry/CustomMesh.ts:26-28 | an input of blank and comment lines only gives three empty arrays |
| `CustomMeshProperties.ClassifySpelled` | src/geometry/CustomMesh.ts:26-29 | a line spelled as a directive and operands, with any white space around them and any non-empty runs of white space between them (tabs, several spaces, a trailing carriage return), classifies back to that directive and those operands |
| `CustomMeshProperties.SpelledLineArrays` | src/geometry/CustomMesh.ts:26-47 | such a line appends what its directive appends for those operands |
| `CustomMeshProperties.VertexLineArrays` | src/geometry/CustomMesh.ts:33-36 | a `v` line, spelled with any white space, appends the operands' values, then 1, to the positions only |
| `CustomMeshProperties.NormalLineArrays` | src/geometry/CustomMesh.ts:38-41 | a `vn` line, spelled with any white space, appends the operands' values, then 0, to the normals only |
| `CustomMeshProperties.FaceLineArrays` | src/geometry/CustomMesh.ts:43-45 | an `f` line, spelled with any white space, appends each operand's value minus 1 to the indices only |
| `CustomMeshProperties.VertexLine` | src/geometry/CustomMesh.ts:33-36 | anywhere in the input, a `v` line spelled with any white space extends the positions by its values and 1 at its place and leaves indices and normals as without it |
| `CustomMeshProperties.NormalLine` | src/geometry/CustomMesh.ts:38-41 | anywhere in the input, a `vn` line spelled with any white space extends the normals by its values and 0 at its place and leaves indices and positions as without it |
| `CustomMeshProperties.FaceLine` | src/geometry/CustomMesh.ts:43-45 | anywhere in the input, an `f` line spelled with any white space extends the indices by its values minus 1 at its place and leaves positions and normals as without it |
| `CustomMeshProperties.ToUint32OfIntegral` | src/geometry/CustomMesh.ts:52 | an integral value is stored as its residue modulo 2^32 |
| `CustomMeshProperties.FaceLineValue` | src/geometry/CustomMesh.ts:43-45 | the line `f tok` appends `parseFloat(tok) - 1` to the indices |
| `CustomMeshProperties.SingleFaceLine` | src/geometry/CustomMesh.ts:43-45 | the line `f tok` appends its one operand, parsed and decremented |
| `CustomMeshProperties.StoredSingleIndex` | src/geometry/CustomMesh.ts:52 | a parsed index list holding one integer k is stored as k mod 2^32 |
| `CustomMeshProperties.FaceIndexOfToken` | src/geometry/CustomMesh.ts:43-52 | an `f` line whose operand reads as the integer k stores the index (k - 1) mod 2^32 |
| `CustomMeshProperties.FaceLineInteger` | src/geometry/CustomMesh.ts:44 | an `f` line whose operand reads as the integer k appends k - 1 |
| `CustomMeshProperties.FaceIndexStored` | src/geometry/CustomMesh.ts:43-52 | the line `f n` stores (n - 1) mod 2^32: one-based indices in [1, 2^32] become n - 1, and `f 0` stores 4294967295 |
| `CustomMeshProperties.OneBasedWrap` | src/geometry/CustomMesh.ts:44-52 | special case of `ToUint32OfIntegers`: n - 1 is its own residue for n in [1, 2^32], and 0 - 1 wraps to 4294967295 |
| `CustomMeshProperties.OnlyFirstFourVerticesMove` | src/geometry/CustomMesh.ts:60-64 | from the fifth vertex on, and in every w slot, the stored position is the parsed value whatever the centre; x, y, z of the first four vertices move by the centre |
| `CustomMeshProperties.OriginCenterKeepsPositions` | src/geometry/CustomMesh.ts:60-64 | with the origin as centre the stored positions are exactly the parsed ones |
| `CustomMeshProperties.FifthVertexNotTranslated` | src/geometry/CustomMesh.ts:60-64 | as written, a fifth vertex's x does not move with the centre, so the mesh is not translated as a whole |
| `CustomMeshProperties.TranslationProperty` | src/geometry/CustomMesh.ts:60-64 | with the corrected pass, each x, y, z slot around any centre is the slot around the origin plus the centre's component, and w is unchanged |
| `CustomMeshProperties.TranslatedAgreesOnSmallMeshes` | src/geometry/CustomMesh.ts:60-64 | on meshes of at most four vertices the corrected and as-written `create()` give the same mesh |
| `CustomMeshProperties.ThreeOperands` | src/geometry/CustomMesh.ts:30-46 | special case of `DirectiveArrays`: for three operands x, y, z: `v` appends their values and 1, `vn` their values and 0, `f` their values minus 1 |
| `CustomMeshProperties.VertexThree` | src/geometry/CustomMesh.ts:33-36 | special case of `DirectiveArrays`: `v x y z` appends [x, y, z, 1] to the positions |
| `CustomMeshProperties.NormalThree` | src/geometry/CustomMesh.ts:38-41 | special case of `DirectiveArrays`: `vn x y z` appends [x, y, z, 0] to the normals |
| `CustomMeshProperties.FaceThree` | src/geometry/CustomMesh.ts:43-45 | special case of `DirectiveArrays`: `f a b c` appends [a - 1, b - 1, c - 1] to the indices |
| `CustomMeshProperties.JoinedLine` | src/geometry/CustomMesh.ts:26-47 | a directive and its operands joined by single spaces append what the directive appends for those operands |
| `CustomMeshProperties.ParseDigitsThree` | src/geometry/CustomMesh.ts:30 | three runs of digits parse, in order, to the values of those digits |
| `CustomMeshProperties.DigitsVertexLine` | src/geometry/CustomMesh.ts:29-36 | the line `v x y z` with digit operands appends their values and 1 to the positions |
| `CustomMeshProperties.DigitsNormalLine` | src/geometry/CustomMesh.ts:29-41 | the line `vn x y z` with digit operands appends their values and 0 to the normals |
| `CustomMeshProperties.DigitsFaceLine` | src/geometry/CustomMesh.ts:29-45 | the line `f x y z` with digit operands appends their values minus 1 to the indices |
| `CustomMeshProperties.DigitFile` | src/geometry/CustomMesh.ts:20-66 | the example file, with 0, 1, 2 and 3 written as any digit runs reading as them, creates indices [0, 1, 2], positions [0,0,0,1, 1,0,0,1, 0,1,0,1], normals [0,0,1,0] and a draw count of 3 around the origin |
| `CustomMeshProperties.SampleFile` | src/geometry/CustomMesh.ts:20-66 | the literal lines `v 0 0 0`, `v 1 0 0`, `v 0 1 0`, `vn 0 0 1`, `f 1 2 3` create exactly that mesh around the origin |
| `CustomMeshProperties.ForEachLineFive` | src/geometry/CustomMesh.ts:25-50 | scanning five lines appends each line's contribution in order |
| `CustomMeshProperties.SampleScan` | src/geometry/CustomMesh.ts:25-50 | three vertex lines, a normal line and a face line scan to the concatenation of their contributions |
| `CustomMeshProperties.SampleParse` | src/geometry/CustomMesh.ts:21-50 | lines contributing like `v 0 0 0`, `v 1 0 0`, `v 0 1 0`, `vn 0 0 1`, `f 1 2 3` parse to positions [0,0,0,1, 1,0,0,1, 0,1,0,1], normals [0,0,1,0] and indices [0,1,2] |
| `CustomMeshProperties.SampleCreate` | src/geometry/CustomMesh.ts:52-66 | those arrays, with the origin as centre, upload as indices [0, 1, 2], the same positions and normals, and a draw count of 3 |
| `Cube.Flatten` | src/geometry/Cube.ts:34-96 | flattening rows gives four numbers per row, and slot 4v + j is component j of row v |
| `Cube.Create` | src/geometry/Cube.ts:16-102 | 36 indices, 96 position and 96 normal numbers, a draw count of 36, and every slot equal to the literal arrays |
| `Cube.FaceIndices` | src/geometry/Cube.ts:18-32 | face k is listed at index 6k as the fan (4k, 4k+1, 4k+2), (4k, 4k+2, 4k+3) |
| `Cube.IndicesInRange` | src/geometry/Cube.ts:18-32 | every index names one of the 24 vertices |
| `Cube.NormalAt` | src/geometry/Cube.ts:34-64 | every normal has w = 0 and exactly one non-zero x, y, z component, which is 1 or -1; all four vertices of a face share the face's normal |
| `Cube.PositionAt` | src/geometry/Cube.ts:66-96 | every position has w = 1 and x, y, z in {1, -1}, and its dot product with its normal is 1 (it lies in its face's plane) |
| `Cube.FirstTriangleWinding` | src/geometry/Cube.ts:66-96 | the triangle (4k, 4k+1, 4k+2) turns counter-clockwise about its face normal (cross product of its edges is 4 n) |
| `Cube.SecondTriangleWinding` | src/geometry/Cube.ts:66-96 | the triangle (4k, 4k+2, 4k+3) turns counter-clockwise about its face normal |
| `Cube.OutwardWinding` | src/geometry/Cube.ts:18-96 | each of the 12 triangles the index array lists is wound counter-clockwise seen from outside the cube |
| `Cube.CountAtIsMultiplicity` | src/geometry/Cube.ts:66-96 | the prefix count of a row is its multiplicity in the multiset of that prefix |
| `Cube.FaceCorners` | src/geometry/Cube.ts:66-96 | a corner is among a face's four positions exactly once if it lies in that face's plane, and otherwise not at all |
| `Cube.FaceStep` | src/geometry/Cube.ts:66-96 | adding a face's four vertices to the count adds 1 for a corner in that face's plane, 0 otherwise |
| `Cube.CountUpToFace` | src/geometry/Cube.ts:66-96 | over the first k faces a corner occurs once for each of those faces that holds it |
| `Cube.CornerFaces` | src/geometry/Cube.ts:34-64 | exactly three of the six face normals point to any given corner |
| `Cube.CornerMultiplicity` | src/geometry/Cube.ts:66-96 | each of the 8 corners is the position of exactly 3 of the 24 vertices |
| `Cube.CenterIgnored` | src/geometry/Cube.ts:13-102 | the cube built is the same whatever centre it was constructed with |

## Left out

- WebGL: buffer creation and binding (`generateIdx`, `generatePos`, `generateNor`, `bindBuffer`, `bufferData`) and the log message are left out. `Mesh` records what would be uploaded.
- Floating point: numbers are exact reals. The parser's rounding to 64-bit doubles and the `Float32Array` rounding of positions and normals are not modelled.
- `parseFloat` overflow is not modelled: a literal too large for a double gives a finite real instead of `Infinity`. Tokens spelling `Infinity` do give the infinities.
- `ToUint32` is the ECMAScript conversion. Conversions to `Float32Array` are taken as the identity on exact reals.
- CustomMesh.Create: the source does not reject malformed numbers, wrong operand counts or indices out of range, and neither does the model. A bad token becomes NaN and is appended, a NaN index is stored as 0, and an out-of-range index is stored as is.
- White space is the full ECMAScript set used by `trim()` and `\s`, which is what the code uses. A narrower reading of the format as "spaces and tabs" is not followed.
- Centre offset as written: the code adds the centre to x, y, z of the first four vertices only, not a translation of every vertex by the centre. `Create` follows the code; the corrected pass is under Findings.
- Cube.CornerMultiplicity: states the count as `CountAt(PositionRows, 24, p)`, the number of vertices at corner p. `CountAtIsMultiplicity` proves this count is the multiplicity of p in the multiset of the positions. The two are not combined into one statement about `multiset`.
- Cube: positions and normals are written as 24 rows of four numbers. `Flatten` lays them out row by row, exactly as the literal arrays list them.
- The constructors, `main.ts` (scene setup, file loading, GUI, render loop) and the `Drawable` base class's buffer management are not part of this model.

## Findings

| source | as written | input that shows it | evidently intended | confidence | as-written member | corrected member |
|---|---|---|---|---|---|---|
| src/geometry/CustomMesh.ts:60-64 | the offset loop runs `i < 4`, so only x, y, z of the first four vertices receive the centre | five `v 0 0 0` lines and centre (1, 0, 0): vertex 5 stays at x = 0 while vertices 1-4 move to x = 1 | every vertex's x, y, z is moved by the centre, so the mesh built around a centre is the mesh built around the origin, translated | medium (not executed) | `CustomMeshProperties.FifthVertexNotTranslated` | `CustomMeshProperties.TranslationProperty` |
