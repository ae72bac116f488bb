/** The earlier copy of the three layers in src/ray/mod.rs, which src/lib.rs
    does not compile. Its tuple arithmetic, colour text, `canvas`,
    `pixel_at` and `to_ppm` are the same as in the live files and are
    shared with them (modules Tuples, Colors, Lib and Canvases). This
    module holds the two places where the copy differs, the product of two
    colours and `write_pixel`, and the tests of the copy that exercise
    them. */
module Ray {
  import opened Wrappers
  import opened Strings
  import opened Tuples
  import opened Colors
  import opened Canvases
  import opened Lib
  import CanvasTests

  // ---------------------------------------------------------------------
  // The product of two colours

  /** `impl Mul for Color` of the copy: the channels are multiplied as in
      the live product, but the result is built with `color()`, so it is a
      point (w = 1) where the live product has w = 0. */
  function Hadamard(a: Color, b: Color): (c: Color)
    ensures c == Colors.Hadamard(a, b).(w := 1.0)
    ensures IsPoint(c) && !IsVector(c)
  {
    MakeColor(Red(a) * Red(b), Green(a) * Green(b), Blue(a) * Blue(b))
  }

  /** The two products never agree as tuples, yet they have the same
      channels and so the same text in a PPM file; the copy's product is
      commutative, and (1, 0.2, 0.4) * (0.9, 1, 0.1) is exactly the colour
      (0.9, 0.2, 0.04). */
  lemma HadamardCompared(a: Color, b: Color)
    ensures Hadamard(a, b) != Colors.Hadamard(a, b)
    ensures Red(Hadamard(a, b)) == Red(Colors.Hadamard(a, b))
    ensures Green(Hadamard(a, b)) == Green(Colors.Hadamard(a, b))
    ensures Blue(Hadamard(a, b)) == Blue(Colors.Hadamard(a, b))
    ensures PpmStr(Hadamard(a, b)) == PpmStr(Colors.Hadamard(a, b))
    ensures Hadamard(a, b) == Hadamard(b, a)
    ensures Hadamard(MakeColor(1.0, 0.2, 0.4), MakeColor(0.9, 1.0, 0.1)) == MakeColor(0.9, 0.2, 0.04)
  {
    HadamardSpec(a, b);
    PpmStrInjective(Hadamard(a, b), Colors.Hadamard(a, b));
  }

  /** Colour arithmetic as the tests of the copy use it: the sum of two
      colours keeps w = 1 (it is the larger of the first w and the second
      blue channel), the difference has w = 0, and scaling scales w too;
      the channels are the sums, differences and multiples. */
  lemma ColorArithmetic()
    ensures Add(MakeColor(0.9, 0.6, 0.75), MakeColor(0.7, 0.1, 0.25)) == MakeColor(1.6, 0.7, 1.0)
    ensures var d := Sub(MakeColor(0.9, 0.6, 0.75), MakeColor(0.7, 0.1, 0.25));
      Red(d) == 0.2 && Green(d) == 0.5 && Blue(d) == 0.5 && d.w == 0.0
    ensures var s := Scale(MakeColor(0.2, 0.3, 0.4), 2.0);
      Red(s) == 0.4 && Green(s) == 0.6 && Blue(s) == 0.8 && s.w == 2.0
  {
  }

  /** The tuple tests of the copy hold of the shared arithmetic: the odd
      addition still gives (1,1,6,1), subtraction of points is a vector,
      negation clamps w up to 4, and the cross products are (-1,2,-1) and
      (1,-2,1). */
  lemma TupleTests()
    ensures Add(MakeTuple(3.0, -2.0, 5.0, 1.0), MakeTuple(-2.0, 3.0, 1.0, 0.0)) == MakeTuple(1.0, 1.0, 6.0, 1.0)
    ensures Sub(MakePoint(3.0, 2.0, 1.0), MakePoint(5.0, 6.0, 7.0)) == MakeVector(-2.0, -4.0, -6.0)
    ensures Sub(MakePoint(3.0, 2.0, 1.0), MakeVector(5.0, 6.0, 7.0)) == MakePoint(-2.0, -4.0, -6.0)
    ensures Sub(MakeVector(3.0, 2.0, 1.0), MakeVector(5.0, 6.0, 7.0)) == MakeVector(-2.0, -4.0, -6.0)
    ensures Sub(MakeVector(0.0, 0.0, 0.0), MakeVector(1.0, -2.0, 3.0)) == MakeVector(-1.0, 2.0, -3.0)
    ensures Neg(MakeTuple(1.0, -2.0, 3.0, -4.0)) == MakeTuple(-1.0, 2.0, -3.0, 4.0)
    ensures Dot(MakeVector(1.0, 2.0, 3.0), MakeVector(2.0, 3.0, 4.0)) == 20.0
    ensures Cross(MakeVector(1.0, 2.0, 3.0), MakeVector(2.0, 3.0, 4.0)) == MakeVector(-1.0, 2.0, -1.0)
    ensures Cross(MakeVector(2.0, 3.0, 4.0), MakeVector(1.0, 2.0, 3.0)) == MakeVector(1.0, -2.0, 1.0)
  {
  }

  // ---------------------------------------------------------------------
  // write_pixel without the coordinate assertion

  /** The only check of the copy's `write_pixel`: the index of the Vec. */
  function WriteCheck(width: nat, length: nat, x: nat, y: nat): Outcome<CanvasError>
  {
    if Offset(width, x, y) >= length then Fail(IndexOutOfRange) else Pass
  }

  /** What dropping the assertion changes. A write the live code accepts
      is accepted by the copy, and one the copy rejects is rejected by the
      live code too, with the same error; within the assertion's bounds the
      two agree. The copy accepts a column past the width and writes into
      the next row: (12, 0) on a 10 x 20 canvas lands on (2, 1), where the
      live code panics. */
  lemma WriteChecksCompared(width: nat, height: nat, length: nat, x: nat, y: nat)
    ensures Canvases.WriteCheck(width, height, length, x, y).Pass? ==> WriteCheck(width, length, x, y).Pass?
    ensures WriteCheck(width, length, x, y).Fail? ==>
      Canvases.WriteCheck(width, height, length, x, y).Fail?
    ensures x <= width && y <= height ==>
      WriteCheck(width, length, x, y) == Canvases.WriteCheck(width, height, length, x, y)
    ensures WriteCheck(width, length, x, y).Pass? <==> Offset(width, x, y) < length
    ensures WriteCheck(10, 200, 12, 0).Pass? && Offset(10, 12, 0) == Offset(10, 2, 1)
    ensures Canvases.WriteCheck(10, 20, 200, 12, 0) == Fail(OutOfBounds)
  {
    OffsetShift(10, 10, 0);
    OffsetStep(10, 1);
  }

  /** `write_pixel` of the copy: when the offset lies in the buffer, that
      one cell is overwritten and reads back as the colour; otherwise (a
      panic) nothing changes. */
  method WritePixel(c: Canvas, x: nat, y: nat, color: Color) returns (r: Outcome<CanvasError>)
    modifies c.pixels
    ensures r == WriteCheck(c.width, c.pixels.Length, x, y)
    ensures r.Pass? ==> c.pixels[..] == old(c.pixels[..])[Offset(c.width, x, y) := color]
    ensures r.Pass? ==> c.PixelAt(x, y) == Ok(color)
    ensures r.Fail? ==> c.pixels[..] == old(c.pixels[..])
  {
    r := WriteCheck(c.width, c.pixels.Length, x, y);
    if r.Fail? {
      return;
    }
    var offset := c.width * y + x;
    OffsetProduct(c.width, x, y);
    c.pixels[offset] := color;
  }

  // ---------------------------------------------------------------------
  // The canvas tests of the copy that write pixels

  /** writing_pixels_to_canvas */
  method WritingPixelsToCanvas() returns (p: Result<Color, CanvasError>)
    ensures p == Ok(MakeColor(1.0, 0.0, 0.0))
  {
    var c := NewCanvas(10, 20);
    var red := MakeColor(1.0, 0.0, 0.0);
    var r := WritePixel(c, 2, 3, red);
    p := c.PixelAt(2, 3);
  }

  /** construct_ppm_pixel_data */
  method ConstructPpmPixelData() returns (body: seq<string>)
    ensures body == ["255 0 0 0 0 0 0 0 0 0 0 0 0 0 0",
                     "0 0 0 0 0 0 0 128 0 0 0 0 0 0 0",
                     "0 0 0 0 0 0 0 0 0 0 0 0 0 0 255"]
  {
    var c := NewCanvas(5, 3);
    ghost var p0 := c.pixels[..];
    var r1 := WritePixel(c, 0, 0, MakeColor(1.5, 0.0, 0.0));
    ghost var p1 := c.pixels[..];
    OffsetProduct(5, 2, 1);
    var r2 := WritePixel(c, 2, 1, MakeColor(0.0, 0.5, 0.0));
    ghost var p2 := c.pixels[..];
    OffsetProduct(5, 4, 2);
    var r3 := WritePixel(c, 4, 2, MakeColor(-0.5, 0.0, 1.0));
    CanvasTests.PixelDataWrites(p0, p1, p2, c.pixels[..]);
    var ppm := c.ToPpm();
    CanvasTests.PixelDataExample(c.pixels[..], c.width, c.height);
    CanvasTests.LinesThreeToSix(Lines(ppm.value), "255 0 0 0 0 0 0 0 0 0 0 0 0 0 0",
      "0 0 0 0 0 0 0 128 0 0 0 0 0 0 0", "0 0 0 0 0 0 0 0 0 0 0 0 0 0 255");
    body := Lines(ppm.value)[3..6];
  }

  /** split_long_lines_in_ppm_files */
  method SplitLongLinesInPpmFiles() returns (body: seq<string>)
    ensures body == [CanvasTests.FirstHead + CanvasTests.FirstTail, CanvasTests.SecondHead + CanvasTests.SecondTail,
                     CanvasTests.FirstHead + CanvasTests.FirstTail, CanvasTests.SecondHead + CanvasTests.SecondTail]
  {
    var c := NewCanvas(10, 2);
    var color := CanvasTests.Peach();
    var y := 0;
    while y < c.height
      invariant c.width == 10 && c.height == 2 && fresh(c.pixels) && c.pixels.Length == 20
      invariant y <= 2 && CanvasTests.FilledTo(c.pixels[..], 10 * y, color)
    {
      var x := 0;
      while x < c.width
        invariant c.width == 10 && c.height == 2 && fresh(c.pixels) && c.pixels.Length == 20
        invariant x <= 10 && CanvasTests.FilledTo(c.pixels[..], 10 * y + x, color)
      {
        OffsetProduct(10, x, y);
        CanvasTests.FillStep(c.pixels[..], 10 * y + x, color);
        var r := WritePixel(c, x, y, color);
        x := x + 1;
      }
      y := y + 1;
    }
    var ppm := c.ToPpm();
    CanvasTests.SplitExample(c.pixels[..]);
    CanvasTests.LinesThreeToSeven(Lines(ppm.value), CanvasTests.FirstHead + CanvasTests.FirstTail,
      CanvasTests.SecondHead + CanvasTests.SecondTail, CanvasTests.FirstHead + CanvasTests.FirstTail,
      CanvasTests.SecondHead + CanvasTests.SecondTail);
    body := Lines(ppm.value)[3..7];
  }
}
