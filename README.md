# rusty-ray core, modelled in Dafny

This project models the three leaf layers of the rusty-ray ray tracer:

- **Tuple** (`tuple.dfy` → module `Tuples`): a value type with four components x, y, z and w. A tuple is a point when w is exactly 1. It is a vector otherwise. The module models the constructors, the classification, `dot`, `cross`, and the `+`, `-`, unary `-`, `* f32` and `/ f32` operators, including their unusual rules for w.
- **Color** (`color.dfy` → module `Colors`): a tuple read as red/green/blue. It adds the Hadamard product, the `clamped` channel encoding and `ppm_str`.
- **Canvas** (`canvas.dfy` → module `Canvases`): a row-major pixel buffer whose cell `(x, y)` is at offset `width * y + x`. `Canvas` is a class holding an `array<Color>`. `WritePixel` updates it in place. `PixelAt` reads it. `ToPpm` builds the plain PPM (P3) text with loops that mirror the source's `push_str`/`insert_str`. The method is proved equal to the functional specification `Ppm`, and the lemmas about `Ppm` state the line structure of the output.
- **Factories** (`lib.dfy` → module `Lib`): `tuple`, `point`, `vector`, `color` and `canvas` from `src/lib.rs`.
- **The earlier copy** (`ray.dfy` → module `Ray`): `src/ray/mod.rs` is not compiled, and it repeats all three layers. The model reuses the shared definitions and adds the copy's two differences. Its Hadamard product has w = 1, because it is built with `color()`. Its `write_pixel` has no coordinate assertion.

Supporting modules:
- `wrappers.dfy` holds `Option`, `Result` and `Outcome`.
- `strings.dfy` models the parts of Rust's standard text handling that the core calls: `format!("{}")` of an unsigned integer, `rfind`, `lines`, `trim` and `join`.
- `canvas_tests.dfy` states the source's canvas tests as methods and lemmas.

Model choices:
- `f32` is modelled as `real`. `usize` and the `u8` channel are modelled as `nat`.
- A Rust panic becomes an error value, and the state is left unchanged. This covers the failed `assert!`, an index or slice past the end of the `Vec`, and the "weird-ass data" branch. The error type is `CanvasError`: `OutOfBounds`, `IndexOutOfRange` or `UnsplittableRow`.
- The code inserts `"\n"` *before* the rightmost space among `row[0..70]`, so the index is at most 69 and the space is kept; the model follows the code. The kept space is then trimmed from the start of the second line.

## Model

| member | source | states |
|---|---|---|
| Tuples.NewRoundTrip | src/tuple.rs:11-18 | `new` stores x, y, z and w verbatim; rebuilding a tuple from its fields gives it back |
| Tuples.Point | src/tuple.rs:20-22 | `point` keeps x/y/z, has w = 1, is a point and not a vector |
| Tuples.Vector | src/tuple.rs:24-26 | `vector` keeps x/y/z, has w = 0, is a vector and not a point |
| Tuples.Classification | src/tuple.rs:28-34 | `is_vector` is exactly `!is_point` for every tuple, so a tuple with w = 0.3 is a vector |
| Tuples.AddSpec | src/tuple.rs:74-81 | addition sums x/y/z; w is the larger of self.w and other.z; (3,-2,5,1) + (-2,3,1,0) = (1,1,6,1) |
| Tuples.AddPointVector | src/tuple.rs:74-81 | point + vector is a point exactly when the vector's z is at most 1 |
| Tuples.AddLeavesClasses | src/tuple.rs:74-81 | concrete inputs where the written addition leaves the point/vector classes |
| Tuples.AddIntendedSpec | src/tuple.rs:74-81 | addition with w = self.w + other.w keeps point + vector a point and vector + vector a vector; it is commutative and agrees with the test sum |
| Tuples.Sub | src/tuple.rs:87-94 | the w of a difference is never negative |
| Tuples.SubSpec | src/tuple.rs:87-94 | subtraction differences x/y/z with w = max(self.w - other.w, 0); point − point and vector − vector are vectors, point − vector is a point |
| Tuples.SubUndoesAdd | src/tuple.rs:74-94 | subtracting b undoes adding b on x/y/z, in both orders |
| Tuples.NegSpec | src/tuple.rs:100-104 | negation is `zero - self`: x/y/z negated, w = max(-w, 0); a negated point has w = 0; -(1,-2,3,-4) = (-1,2,-3,4) |
| Tuples.NegNeg | src/tuple.rs:100-104 | double negation restores x/y/z, always has w = 0, and is the identity exactly when w = 0 |
| Tuples.ScaleDiv | src/tuple.rs:107-131 | multiply and divide scale all four components, w included; dividing by s is multiplying by 1/s, and each undoes the other |
| Tuples.ScaleDivExamples | src/ray/mod.rs:358-377 | (1,-2,3,-4) times 3.5 is (3.5,-7,10.5,-14), times 0.5 and divided by 2 are both (0.5,-1,1.5,-2) |
| Tuples.DotSpec | src/tuple.rs:54-59 | `dot` is symmetric, linear in a scaled argument, and non-negative on a tuple with itself; (1,2,3)·(2,3,4) = 20 |
| Tuples.Cross | src/tuple.rs:61-67 | the cross product is always a vector with w = 0 |
| Tuples.CrossSpec | src/tuple.rs:61-67 | `cross` ignores both w's, is antisymmetric, and is orthogonal to both arguments |
| Tuples.CrossExamples | src/ray/mod.rs:414-420 | (1,2,3)×(2,3,4) = (-1,2,-1) and (2,3,4)×(1,2,3) = (1,-2,1) |
| Colors.Channels | src/color.rs:7-17 | red, green and blue are x, y and z; a colour is rebuilt from its channels and w |
| Colors.Round | src/color.rs:38 | `round` gives the nearest integer, with halves rounded away from zero |
| Colors.ToByte | src/color.rs:38 | the `as u8` cast lands in 0..255 and keeps values already in range |
| Colors.Clamped | src/color.rs:29-39 | `clamped` always lies in 0..255 |
| Colors.ClampedChannel | src/color.rs:29-39 | parts above 1 give 255 and parts below 0 give 0; in [0,1] the result is part*255 rounded half up; 0.5, 0.8 and 0.6 give 128, 204 and 153 |
| Colors.PpmStrShape | src/color.rs:19-25 | `ppm_str` has 5 to 11 characters, only digits and exactly two spaces, no space at either end and no line feed |
| Colors.PpmStrFirstSpace | src/color.rs:19-25 | a pixel's text has a space by index 3 |
| Colors.ReadPpmStrRoundTrip | src/color.rs:19-25 | reading the three numbers back from `ppm_str` gives the three clamped channels |
| Colors.PpmStrInjective | src/color.rs:19-39 | two colours have the same text exactly when their clamped channels agree, whatever their w |
| Colors.HadamardSpec | src/color.rs:45-52 | the Hadamard product multiplies channels pairwise, has w = 0 (a vector), is commutative, has white as unit on the channels, and (1,0.2,0.4)*(0.9,1,0.1) = (0.9,0.2,0.04) |
| Strings.Dec | src/canvas.rs:33 | `format!("{}")` of an unsigned integer is a non-empty string of digits that starts with '0' only for 0 |
| Strings.DecRoundTrip | src/canvas.rs:33 | reading back the decimal text of n gives n |
| Strings.DecInjective | src/canvas.rs:33 | two numbers have the same decimal text exactly when they are equal |
| Strings.DecLength | src/color.rs:24 | numbers below 10, 100 and 1000 take at most one, two and three digits |
| Strings.RFind | src/canvas.rs:51 | `rfind` finds the last occurrence of the character, and finds none exactly when it does not occur |
| Strings.TrimSpec | src/canvas.rs:63 | `trim` gives a trimmed string, leaves trimmed text alone, and is idempotent |
| Strings.LinesOfJoin | src/canvas.rs:61-69 | joining lines without line feeds with "\n" and appending "\n" gives text whose `lines()` are those lines |
| Strings.LinesAppend | src/canvas.rs:61-62 | the lines of text that ends with "\n" followed by more text are the lines of each part |
| Canvases.OffsetProduct | src/canvas.rs:20 | the row-major offset is `width * y + x` |
| Canvases.WriteCheckOnSized | src/canvas.rs:14-23 | on a width×height buffer every in-picture write passes; x == width passes on all but the last row and lands on (0, y+1); past the assertion it fails; (0, height) fails on the index |
| Canvases.Canvas.constructor | src/canvas.rs:10-12 | `Canvas::new` stores width, height and the buffer as given |
| Canvases.Canvas.PixelAt | src/canvas.rs:25-29 | `pixel_at` succeeds exactly when `width*y + x` is inside the buffer, and then returns that cell |
| Canvases.Canvas.WritePixel | src/canvas.rs:14-23 | `write_pixel` fails on x > width or y > height, or when the offset is past the buffer, and then changes nothing; otherwise only cell `width*y + x` changes and `pixel_at(x,y)` returns the colour |
| Canvases.Canvas.EncodeRowAt | src/canvas.rs:36-45 | the inner loop builds `ppm_str(p) + " "` for each pixel of the row in order, then "\n" |
| Canvases.Canvas.RowAt | src/canvas.rs:36-56 | one row-loop iteration slices and encodes row y, then inserts "\n" before the last space in the first 70 characters of a row longer than 70, exactly as the specification `WrapRow` does; it fails on a slice past the buffer or a long row without such a space |
| Canvases.Canvas.BuildBody | src/canvas.rs:32-59 | the header and row loop give exactly the body `Body(width, height, ...)` after all rows, or the panic of the first failing row |
| Canvases.Canvas.ToPpm | src/canvas.rs:31-70 | `to_ppm` returns exactly `Ppm(width, height, pixels)` and modifies nothing, so repeated calls give identical text |
| Canvases.Pieces | src/canvas.rs:47-56 | a row is split in two exactly when its text with "\n" exceeds 70; the first piece is under 70 characters and the second starts at the space |
| Canvases.WrapRowLines | src/canvas.rs:47-56 | a row whose cells can be cut wraps without panic, and its lines are its pieces; the remainder is never split again |
| Canvases.CellsSplittable | src/canvas.rs:47-56 | the cells of real pixel texts always have a space in their first 70 characters, so the panic branch is unreachable |
| Canvases.SplitByWidth | src/canvas.rs:36-56 | rows of at most 5 pixels are never split; rows of 12 or more always are |
| Canvases.TrailingSpaceSplit | src/canvas.rs:47-56 | when the row's own trailing space at index 69 is the rightmost space within the first 70 characters, the second piece is " " and trims to an empty line |
| Canvases.TrimmedCells | src/canvas.rs:36-45 | an unsplit row trims to the pixel texts joined by single spaces |
| Canvases.AllPiecesCount | src/canvas.rs:36-58 | each row contributes one line, plus one when it is split |
| Canvases.RawLinesCount | src/canvas.rs:36-58 | the rows of the buffer give height + (number of split rows) lines |
| Canvases.PpmFailsAt | src/canvas.rs:31-58 | the first row that panics decides the outcome of `to_ppm` |
| Canvases.PpmOutcome | src/canvas.rs:31-70 | `to_ppm` succeeds exactly when the buffer holds width*height pixels; otherwise it fails on the slice, never on the split |
| Canvases.PpmProperties | src/canvas.rs:31-70 | a successful `to_ppm` starts with `"P3\n" + width + " " + height + "\n255\n"`, ends with "\n", has 3 + height + (split rows) lines, and every line is trimmed |
| Canvases.PpmHeaderLines | src/canvas.rs:32-34 | the first three lines are "P3", "<width> <height>" and "255", and the text ends with "\n" |
| Canvases.PpmBodyLines | src/canvas.rs:61-69 | after the header, output line 3+i is raw row line i trimmed, and there are no others |
| Canvases.NarrowPpmLine | src/canvas.rs:36-45 | in a canvas at most five pixels wide, line 3+y is row y's pixel texts joined by single spaces |
| Lib.MakeTuple | src/lib.rs:11-13 | `tuple(x,y,z,w)` has exactly those components |
| Lib.MakePoint | src/lib.rs:15-17 | `point` is `tuple(x,y,z,1)` and is a point |
| Lib.MakeVector | src/lib.rs:19-21 | `vector` is `tuple(x,y,z,0)` and is a vector |
| Lib.MakeColor | src/lib.rs:23-26 | `color(r,g,b)` is `point(r,g,b)`, has w = 1, and reads back r, g and b |
| Lib.Blank | src/lib.rs:29 | the `vec!` fill has n cells, each `color(0,0,0)` |
| Lib.NewCanvas | src/lib.rs:28-32 | `canvas(w,h)` records w and h and allocates w*h black pixels, so the buffer is `Sized()`; with `Canvases.WriteCheckOnSized` every write inside the picture then passes |
| Lib.FactoryExamples | src/ray/mod.rs:302-309 | the factories as the tests use them, and a colour's channels read back as given |
| CanvasTests.CreatingACanvas | src/canvas.rs:77-84 | a 10×20 canvas has 200 pixels, all `color(0,0,0)` |
| CanvasTests.WritingPixelsToCanvas | src/canvas.rs:86-94 | after writing red at (2,3), `pixel_at(2,3)` is red |
| CanvasTests.HeaderExample | src/canvas.rs:96-105 | a 5×3 canvas's text begins with "P3", "5 3", "255" and ends with "\n" |
| CanvasTests.ConstructPpmHeader | src/canvas.rs:96-105 | the test's header lines are exactly "P3", "5 3", "255" |
| CanvasTests.PixelDataExample | src/canvas.rs:107-124 | the three rows of the pixel-data test serialise to the asserted body lines |
| CanvasTests.ConstructPpmPixelData | src/canvas.rs:107-124 | running the three writes and `to_ppm` yields the asserted body lines |
| CanvasTests.SplitExample | src/canvas.rs:126-142 | a 10×2 canvas of (1,0.8,0.6) gives four body lines, each row split into the asserted pair |
| CanvasTests.SplitLongLinesInPpmFiles | src/canvas.rs:126-142 | filling the canvas with `write_pixel` and serialising yields the four asserted lines |
| CanvasTests.PpmFilesTerminateWithNewline | src/canvas.rs:144-150 | the text of a fresh 5×3 canvas ends with "\n" |
| CanvasTests.TrailingSpaceExample | src/canvas.rs:47-56 | a 6×1 row of five white pixels and one yellow pixel is exactly 71 characters; it splits at its trailing space, and the last output line is empty |
| Ray.Hadamard | src/ray/mod.rs:49-60 | the copy's product has the live product's channels but w = 1, so it is a point |
| Ray.HadamardCompared | src/ray/mod.rs:53-59 | the two products never agree as tuples, yet give the same PPM text; the copy's product is commutative and gives color(0.9,0.2,0.04) on the test |
| Ray.ColorArithmetic | src/ray/mod.rs:431-452 | colour +, − and scalar × as in the copy's tests, with the w each one yields |
| Ray.TupleTests | src/ray/mod.rs:311-420 | the copy's tuple tests hold of the shared arithmetic, including the odd addition and the clamped negation |
| Ray.WriteChecksCompared | src/ray/mod.rs:211-215 | without the assertion, every write the live code accepts is accepted; the copy fails only past the buffer; (12,0) on 10×20 lands on (2,1) |
| Ray.WritePixel | src/ray/mod.rs:211-215 | the copy's `write_pixel` fails only when `width*y + x` is past the buffer; otherwise only that cell changes and `pixel_at` returns the colour |
| Ray.WritingPixelsToCanvas | src/ray/mod.rs:471-479 | the copy's write test reads back red |
| Ray.ConstructPpmPixelData | src/ray/mod.rs:492-509 | the copy's pixel-data test yields the asserted body lines |
| Ray.SplitLongLinesInPpmFiles | src/ray/mod.rs:511-527 | the copy's split test yields the four asserted lines |

## Findings

| source | as written | input that shows it | evidently intended | confidence | as-written member | corrected member |
|---|---|---|---|---|---|---|
| src/tuple.rs:79 | the w of a sum is `self.w.max(other.z)`, using the other operand's z | `point(0,0,0) + vector(0,0,2)` has w = 2, so it is not a point; `vector(0,0,1) + vector(0,0,1)` has w = 1, so it is a point | w = self.w + other.w, so point + vector is a point and vector + vector is a vector | high (the z/w mix-up); not executed | Tuples.AddLeavesClasses | Tuples.AddIntendedSpec |

The rest of the model keeps the addition as written, because it models the code.

## Left out

- `magnitude` and `normalize` (src/tuple.rs:36-52, src/ray/mod.rs:89-105) need a square root and IEEE division by zero. Only the squared magnitude, `Tuples.MagnitudeSquared`, is defined.
- f32 semantics: rounding error, NaN and infinities are not modelled. Components are reals. The NaN case of `clamped` (NaN cast to u8 gives 0) is therefore absent.
- Tuples.Div: requires a nonzero divisor. Rust's division by zero would produce infinities or NaN instead.
- `usize` overflow in `width * y + x` and in `width * height` is not modelled, because sizes are unbounded naturals.
- Panics are modelled as error results that leave the canvas unchanged. The process abort is not modelled.
- Strings.Lines: `str::lines` also strips a `\r` before a line feed. The model splits on `\n` only, and no `\r` ever occurs in the text.
- Strings.Trim: Rust trims all Unicode whitespace. The model trims ASCII whitespace, which is the only kind that occurs.
- `Canvas` fields are public in Rust, so outside code could reassign them or resize the buffer. No operation of the type does so, and the model declares the three fields `const`. Only the buffer's contents change in place.
- `Canvas::new` moves a `Vec` into the struct. The model copies the sequence into a fresh array, so aliasing with the caller's vector is not represented.
- `src/main.rs` only prints a greeting, and its tests repeat tuple tests already covered. It is not part of this model.
- Colour tests that compare with a tolerance (src/ray/mod.rs:529-544) are stated as exact equalities on reals.
