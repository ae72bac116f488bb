/** The test cases of src/canvas.rs, stated as methods that run them on a
    canvas and promise the outcome the tests assert, with the lemmas that
    compute those outcomes from the serialisation. */
module CanvasTests {
  import opened Wrappers
  import opened Strings
  import opened Tuples
  import opened Colors
  import opened Canvases
  import opened Lib

  // ---------------------------------------------------------------------
  // Repeated text

  /** n copies of u, one after the other. */
  function Rep(u: string, n: nat): string
    decreases n
  {
    if n == 0 then [] else Rep(u, n - 1) + u
  }

  lemma {:induction false} RepAdd(u: string, m: nat, n: nat)
    ensures Rep(u, m + n) == Rep(u, m) + Rep(u, n)
    decreases n
  {
    if n > 0 {
      RepAdd(u, m, n - 1);
      assert Rep(u, m + n) == Rep(u, m + n - 1) + u;
    }
  }

  lemma {:induction false} RepLength(u: string, n: nat)
    ensures |Rep(u, n)| == n * |u|
    decreases n
  {
    if n > 0 {
      RepLength(u, n - 1);
    }
  }

  lemma RepFive(u: string)
    ensures Rep(u, 5) == u + u + u + u + u
  {
    assert Rep(u, 1) == [] + u == u;
    assert Rep(u, 2) == u + u;
  }

  /** The cells of n equal texts are n copies of the text and a space. */
  lemma {:induction false} CellsRepeat(t: string, n: nat)
    ensures Cells(seq(n, _ => t)) == Rep(t + " ", n)
    decreases n
  {
    if n > 0 {
      CellsRepeat(t, n - 1);
      assert seq(n, _ => t)[..n - 1] == seq(n - 1, _ => t);
    }
  }

  lemma TextAt(ps: seq<Color>, i: nat, c: Color, t: string)
    requires i < |ps| && ps[i] == c && PpmStr(c) == t
    ensures PpmStrs(ps)[i] == t
  {
    PpmStrsAt(ps, i);
  }

  // ---------------------------------------------------------------------
  // The pixels of the tests and their texts

  lemma BlackText()
    ensures PpmStr(MakeColor(0.0, 0.0, 0.0)) == "0 0 0"
  {
  }

  lemma RedText()
    ensures PpmStr(MakeColor(1.5, 0.0, 0.0)) == "255 0 0"
  {
  }

  lemma GreenText()
    ensures PpmStr(MakeColor(0.0, 0.5, 0.0)) == "0 128 0"
  {
    ClampedChannel(0.5);
  }

  lemma BlueText()
    ensures PpmStr(MakeColor(-0.5, 0.0, 1.0)) == "0 0 255"
  {
  }

  lemma PeachText()
    ensures PpmStr(MakeColor(1.0, 0.8, 0.6)) == "255 204 153"
  {
    ClampedChannel(0.8);
    ClampedChannel(0.6);
  }

  // ---------------------------------------------------------------------
  // construct_ppm_header and ppm_files_terminate_with_newline

  /** The text of a 5 x 3 canvas begins with the lines "P3", "5 3" and
      "255" and ends with a line feed. */
  lemma HeaderExample(ps: seq<Color>)
    requires |ps| == 15
    ensures Ppm(5, 3, ps).Ok?
    ensures var out := Ppm(5, 3, ps).value;
      |Lines(out)| >= 3 && Lines(out)[..3] == ["P3", "5 3", "255"] &&
      out != [] && out[|out| - 1] == '\n'
  {
    PpmHeaderLines(5, 3, ps);
    SmallHeader();
  }

  lemma SmallHeader()
    ensures HeaderLines(5, 3) == ["P3", "5 3", "255"]
  {
    assert DigitChar(5) == '5' && DigitChar(3) == '3';
    assert Dec(5) + " " + Dec(3) == "5 3";
  }

  // ---------------------------------------------------------------------
  // construct_ppm_pixel_data

  /** The buffer after the three writes of the test: black but for the
      pixels at offsets 0, 7 and 14. */
  predicate PixelDataBuffer(ps: seq<Color>)
  {
    |ps| == 15 &&
    forall i :: 0 <= i < 15 ==>
      ps[i] == (if i == 0 then MakeColor(1.5, 0.0, 0.0)
                else if i == 7 then MakeColor(0.0, 0.5, 0.0)
                else if i == 14 then MakeColor(-0.5, 0.0, 1.0)
                else MakeColor(0.0, 0.0, 0.0))
  }

  /** The three writes of the test, on a black 5 x 3 buffer, leave it so. */
  lemma PixelDataWrites(p0: seq<Color>, p1: seq<Color>, p2: seq<Color>, p3: seq<Color>)
    requires p0 == Blank(15)
    requires p1 == p0[0 := MakeColor(1.5, 0.0, 0.0)]
    requires p2 == p1[7 := MakeColor(0.0, 0.5, 0.0)]
    requires p3 == p2[14 := MakeColor(-0.5, 0.0, 1.0)]
    ensures PixelDataBuffer(p3)
  {
  }

  lemma PixelDataRow0(ps: seq<Color>)
    requires PixelDataBuffer(ps)
    ensures PpmStrs(ps)[0..5] == ["255 0 0", "0 0 0", "0 0 0", "0 0 0", "0 0 0"]
  {
    var b := MakeColor(0.0, 0.0, 0.0);
    BlackText();
    RedText();
    TextAt(ps, 0, MakeColor(1.5, 0.0, 0.0), "255 0 0");
    TextAt(ps, 1, b, "0 0 0");
    TextAt(ps, 2, b, "0 0 0");
    TextAt(ps, 3, b, "0 0 0");
    TextAt(ps, 4, b, "0 0 0");
  }

  lemma PixelDataRow1(ps: seq<Color>)
    requires PixelDataBuffer(ps)
    ensures PpmStrs(ps)[5..10] == ["0 0 0", "0 0 0", "0 128 0", "0 0 0", "0 0 0"]
  {
    var b := MakeColor(0.0, 0.0, 0.0);
    BlackText();
    GreenText();
    TextAt(ps, 5, b, "0 0 0");
    TextAt(ps, 6, b, "0 0 0");
    TextAt(ps, 7, MakeColor(0.0, 0.5, 0.0), "0 128 0");
    TextAt(ps, 8, b, "0 0 0");
    TextAt(ps, 9, b, "0 0 0");
  }

  lemma PixelDataRow2(ps: seq<Color>)
    requires PixelDataBuffer(ps)
    ensures PpmStrs(ps)[10..15] == ["0 0 0", "0 0 0", "0 0 0", "0 0 0", "0 0 255"]
  {
    var b := MakeColor(0.0, 0.0, 0.0);
    BlackText();
    BlueText();
    TextAt(ps, 10, b, "0 0 0");
    TextAt(ps, 11, b, "0 0 0");
    TextAt(ps, 12, b, "0 0 0");
    TextAt(ps, 13, b, "0 0 0");
    TextAt(ps, 14, MakeColor(-0.5, 0.0, 1.0), "0 0 255");
  }

  lemma JoinFive(a: string, b: string, c: string, d: string, e: string, sep: string)
    ensures Join([a, b, c, d, e], sep) == a + sep + b + sep + c + sep + d + sep + e
  {
    assert [a, b, c, d, e] == [a] + [b, c, d, e];
    assert [b, c, d, e] == [b] + [c, d, e];
    assert [c, d, e] == [c] + [d, e];
    JoinFront(a, [b, c, d, e], sep);
    JoinFront(b, [c, d, e], sep);
    JoinFront(c, [d, e], sep);
    assert Join([d, e], sep) == d + sep + e;
  }

  /** Three consecutive lines, as `lines().skip(3).take(3)` collects them. */
  lemma LinesThreeToSix(ls: seq<string>, a: string, b: string, c: string)
    requires |ls| >= 6 && ls[3] == a && ls[4] == b && ls[5] == c
    ensures ls[3..6] == [a, b, c]
  {
  }

  /** Four consecutive lines, as `lines().skip(3).take(4)` collects them. */
  lemma LinesThreeToSeven(ls: seq<string>, a: string, b: string, c: string, d: string)
    requires |ls| >= 7 && ls[3] == a && ls[4] == b && ls[5] == c && ls[6] == d
    ensures ls[3..7] == [a, b, c, d]
  {
  }

  /** Line 3 + y of `ls` is the texts of row y of `ts`, joined by single
      spaces. */
  predicate RowLine(ls: seq<string>, ts: seq<string>, w: nat, y: nat)
  {
    Offset(w, 0, y) + w <= |ts| && 3 + y < |ls| &&
    ls[3 + y] == Join(ts[Offset(w, 0, y)..Offset(w, 0, y) + w], " ")
  }

  /** In the text of a buffer at most 5 wide, line 3 + y is row y. */
  lemma NarrowLine(w: nat, h: nat, ts: seq<string>, y: nat)
    requires 1 <= w <= 5 && Offset(w, 0, h) <= |ts| && PixelTexts(ts) && y < h
    ensures PpmText(w, h, ts).Ok?
    ensures |Lines(PpmText(w, h, ts).value)| == 3 + h
    ensures RowLine(Lines(PpmText(w, h, ts).value), ts, w, y)
  {
    NarrowPpmLine(w, h, ts, y);
  }

  /** Lines 3 to 5 of the text of that canvas are its three rows. */
  lemma PixelDataExample(ps: seq<Color>, w: nat, h: nat)
    requires w == 5 && h == 3 && PixelDataBuffer(ps)
    ensures Ppm(w, h, ps).Ok?
    ensures var ls := Lines(Ppm(w, h, ps).value);
      |ls| == 6 &&
      ls[3] == "255 0 0 0 0 0 0 0 0 0 0 0 0 0 0" &&
      ls[4] == "0 0 0 0 0 0 0 128 0 0 0 0 0 0 0" &&
      ls[5] == "0 0 0 0 0 0 0 0 0 0 0 0 0 0 255"
  {
    PixelDataJoin0(ps);
    PixelDataJoin1(ps);
    PixelDataJoin2(ps);
    PixelDataLines(ps, w, h, "255 0 0 0 0 0 0 0 0 0 0 0 0 0 0",
      "0 0 0 0 0 0 0 128 0 0 0 0 0 0 0", "0 0 0 0 0 0 0 0 0 0 0 0 0 0 255");
  }

  /** The three body lines of a 5 x 3 buffer, from the texts of its rows.
      (The row numbers are variables rather than literals, so that the
      verifier does not evaluate the serialisation on literal arguments.) */
  lemma PixelDataLines(ps: seq<Color>, w: nat, h: nat, l0: string, l1: string, l2: string)
    requires w == 5 && h == 3 && |ps| == 15
    requires Join(PpmStrs(ps)[0..5], " ") == l0
    requires Join(PpmStrs(ps)[5..10], " ") == l1
    requires Join(PpmStrs(ps)[10..15], " ") == l2
    ensures Ppm(w, h, ps).Ok?
    ensures var ls := Lines(Ppm(w, h, ps).value);
      |ls| == 6 && ls[3] == l0 && ls[4] == l1 && ls[5] == l2
  {
    var ts := PpmStrs(ps);
    assert Offset(w, 0, h) == 15;
    PpmStrsArePixelTexts(ps);
    var y0, y1, y2 := 0, 1, 2;
    NarrowLine(w, h, ts, y0);
    NarrowLine(w, h, ts, y1);
    NarrowLine(w, h, ts, y2);
    ThreeRowLines(Lines(PpmText(w, h, ts).value), ts, w, y0, y1, y2, l0, l1, l2);
  }

  /** Rows 0, 1 and 2 of a buffer 5 wide sit at offsets 0, 5 and 10. */
  lemma ThreeRowLines(ls: seq<string>, ts: seq<string>, w: nat, y0: nat, y1: nat, y2: nat,
                      l0: string, l1: string, l2: string)
    requires w == 5 && |ts| == 15 && y0 == 0 && y1 == 1 && y2 == 2
    requires RowLine(ls, ts, w, y0) && RowLine(ls, ts, w, y1) && RowLine(ls, ts, w, y2)
    requires Join(ts[0..5], " ") == l0
    requires Join(ts[5..10], " ") == l1
    requires Join(ts[10..15], " ") == l2
    ensures ls[3] == l0 && ls[4] == l1 && ls[5] == l2
  {
    assert Offset(w, 0, y0) == 0 && Offset(w, 0, y1) == 5 && Offset(w, 0, y2) == 10;
  }

  lemma PixelDataJoin0(ps: seq<Color>)
    requires PixelDataBuffer(ps)
    ensures Join(PpmStrs(ps)[0..5], " ") == "255 0 0 0 0 0 0 0 0 0 0 0 0 0 0"
  {
    var r, k := "255 0 0", "0 0 0";
    PixelDataRow0(ps);
    JoinFive(r, k, k, k, k, " ");
    assert r + " " + k == "255 0 0 0 0 0";
    assert "255 0 0 0 0 0" + " " + k + " " + k == "255 0 0 0 0 0 0 0 0 0 0 0";
    assert "255 0 0 0 0 0 0 0 0 0 0 0" + " " + k == "255 0 0 0 0 0 0 0 0 0 0 0 0 0 0";
  }

  lemma PixelDataJoin1(ps: seq<Color>)
    requires PixelDataBuffer(ps)
    ensures Join(PpmStrs(ps)[5..10], " ") == "0 0 0 0 0 0 0 128 0 0 0 0 0 0 0"
  {
    var g, k := "0 128 0", "0 0 0";
    PixelDataRow1(ps);
    JoinFive(k, k, g, k, k, " ");
    assert k + " " + k == "0 0 0 0 0 0";
    assert "0 0 0 0 0 0" + " " + g == "0 0 0 0 0 0 0 128 0";
    assert "0 0 0 0 0 0 0 128 0" + " " + k + " " + k == "0 0 0 0 0 0 0 128 0 0 0 0 0 0 0";
  }

  lemma PixelDataJoin2(ps: seq<Color>)
    requires PixelDataBuffer(ps)
    ensures Join(PpmStrs(ps)[10..15], " ") == "0 0 0 0 0 0 0 0 0 0 0 0 0 0 255"
  {
    var b, k := "0 0 255", "0 0 0";
    PixelDataRow2(ps);
    JoinFive(k, k, k, k, b, " ");
    assert k + " " + k == "0 0 0 0 0 0";
    assert "0 0 0 0 0 0" + " " + k + " " + k == "0 0 0 0 0 0 0 0 0 0 0 0";
    assert "0 0 0 0 0 0 0 0 0 0 0 0" + " " + b == "0 0 0 0 0 0 0 0 0 0 0 0 0 0 255";
  }

  // ---------------------------------------------------------------------
  // split_long_lines_in_ppm_files

  function Peach(): Color { MakeColor(1.0, 0.8, 0.6) }

  /** The two lines of a split row, each written in two halves. */
  const FirstHead := "255 204 153 255 204 153 255 204 153 "
  const FirstTail := "255 204 153 255 204 153 255 204"
  const SecondHead := "153 255 204 153 255 204 153 "
  const SecondTail := "255 204 153 255 204 153"

  /** A row of twelve-character cells is cut at index 67, the last space
      among its first 70 characters. */
  lemma CutAt67(a: string, r: string)
    requires |a| == 60
    ensures var cells := a + "255 204 153 " + r;
      Splittable(cells) && Pieces(cells) == [a + "255 204", " 153 " + r]
  {
    var u := "255 204 153 ";
    var cells := a + u + r;
    assert cells[..70] == a + u[..10];
    assert cells[..70][67] == ' ';
    assert cells[..70][68] == '1' && cells[..70][69] == '5';
    var idx := RFind(cells[..70], ' ').value;
    assert idx == 67;
    assert cells[..67] == a + "255 204";
    assert cells[67..] == " 153 " + r;
  }

  lemma RepTen(u: string)
    ensures Rep(u, 10) == Rep(u, 5) + u + Rep(u, 4)
    ensures |Rep(u, 5)| == 5 * |u|
  {
    RepAdd(u, 5, 5);
    RepAdd(u, 1, 4);
    assert Rep(u, 1) == u;
    RepLength(u, 5);
  }

  lemma SplitCells(t: string)
    requires t == "255 204 153"
    ensures |Cells(seq(10, _ => t))| == 120
    ensures Splittable(Cells(seq(10, _ => t)))
    ensures Trim(Pieces(Cells(seq(10, _ => t)))[0]) == FirstHead + FirstTail
    ensures Trim(Pieces(Cells(seq(10, _ => t)))[1]) == SecondHead + SecondTail
  {
    var u := t + " ";
    CellsRepeat(t, 10);
    RepLength(u, 10);
    RepTen(u);
    CutAt67(Rep(u, 5), Rep(u, 4));
    FirstLine(u);
    SecondLine(u);
  }

  lemma FirstLine(u: string)
    requires u == "255 204 153 "
    ensures Trim(Rep(u, 5) + "255 204") == FirstHead + FirstTail
  {
    var w := "255 204";
    assert u[0] == '2' && w[|w| - 1] == '4';
    assert FirstHead == u + u + u;
    assert FirstTail == u + u + w;
    FirstPieces(u, w, FirstHead, FirstTail);
  }

  lemma FirstPieces(u: string, w: string, h: string, t: string)
    requires h == u + u + u && t == u + u + w
    requires u != [] && !IsSpace(u[0]) && w != [] && !IsSpace(w[|w| - 1])
    ensures Trim(Rep(u, 5) + w) == h + t
  {
    RepFive(u);
    var x := h + t;
    assert Rep(u, 5) + w == x;
    assert x[0] == u[0] && x[|x| - 1] == w[|w| - 1];
    TrimSpec(x);
  }

  lemma SecondLine(u: string)
    requires u == "255 204 153 "
    ensures Trim(" 153 " + Rep(u, 4)) == SecondHead + SecondTail
  {
    var v := "255 204 153";
    assert u == v + " " && v[|v| - 1] == '3';
    assert SecondHead == "153 " + u + u;
    assert SecondTail == u + v;
    SecondPieces(u, v, SecondHead, SecondTail);
  }

  lemma SecondPieces(u: string, v: string, h: string, t: string)
    requires u == v + " " && h == "153 " + u + u && t == u + v
    requires v != [] && !IsSpace(v[|v| - 1])
    ensures Trim(" 153 " + Rep(u, 4)) == h + t
  {
    RepAdd(u, 0, 1);
    assert Rep(u, 4) == u + u + u + u;
    var z := h + t;
    assert " 153 " + Rep(u, 4) == " " + z + " ";
    assert z[0] == '1' && z[|z| - 1] == v[|v| - 1];
    PadTrim(z);
  }

  lemma PadTrim(z: string)
    requires z != [] && Trimmed(z)
    ensures Trim(" " + z + " ") == z
  {
    assert (" " + z + " ")[1..] == z + " ";
    assert TrimStart(z + " ") == z + " ";
    TrimTrailingSpace(z);
  }

  /** The first n pixels of a 20-pixel buffer have the colour and the
      others are black. */
  predicate FilledTo(ps: seq<Color>, n: nat, color: Color)
  {
    |ps| == 20 &&
    forall i :: 0 <= i < 20 ==> ps[i] == if i < n then color else MakeColor(0.0, 0.0, 0.0)
  }

  lemma FillStep(ps: seq<Color>, n: nat, color: Color)
    requires FilledTo(ps, n, color) && n < 20
    ensures FilledTo(ps[n := color], n + 1, color)
  {
  }

  /** The texts of a buffer of one colour are all that colour's text. */
  lemma UniformOf(ps: seq<Color>, c: Color, t: string)
    requires forall i :: 0 <= i < |ps| ==> ps[i] == c
    requires PpmStr(c) == t
    ensures PixelTexts(PpmStrs(ps))
    ensures forall i :: 0 <= i < |ps| ==> PpmStrs(ps)[i] == t
  {
    PpmStrsArePixelTexts(ps);
    forall i | 0 <= i < |ps| ensures PpmStrs(ps)[i] == t {
      PpmStrsAt(ps, i);
    }
  }

  /** A slice of a sequence of one value is that value repeated. */
  lemma UniformSlice(ts: seq<string>, t: string, lo: nat, n: nat)
    requires lo + n <= |ts| && forall i :: 0 <= i < |ts| ==> ts[i] == t
    ensures ts[lo..lo + n] == seq(n, _ => t)
  {
  }

  lemma SplitRaw(ts: seq<string>, t: string, w: nat, h: nat)
    requires w == 10 && h == 2 && |ts| == 20 && PixelTexts(ts)
    requires forall i :: 0 <= i < 20 ==> ts[i] == t
    ensures Offset(w, 0, h) <= |ts|
    ensures RowReady(Cells(seq(10, _ => t)))
    ensures RawLines(w, ts, h) == Pieces(Cells(seq(10, _ => t))) + Pieces(Cells(seq(10, _ => t)))
  {
    OffsetProduct(w, 0, h);
    var k := h - 1;
    RawLinesSnoc(w, ts, h);
    RawLinesSnoc(w, ts, k);
    var o0, o1, row := Offset(w, 0, k - 1), Offset(w, 0, k), seq(10, _ => t);
    assert o0 == 0 && o1 == 10;
    UniformSlice(ts, t, o0, w);
    UniformSlice(ts, t, o1, w);
    assert RawLines(w, ts, k - 1) == [];
    assert RawLines(w, ts, k) == Pieces(Cells(row));
  }

  lemma SplitText(ts: seq<string>, t: string)
    requires t == "255 204 153"
    requires |ts| == 20 && PixelTexts(ts)
    requires forall i :: 0 <= i < 20 ==> ts[i] == t
    ensures Offset(10, 0, 2) <= |ts|
    ensures PpmText(10, 2, ts).Ok?
    ensures var ls := Lines(PpmText(10, 2, ts).value);
      |ls| == 7 &&
      ls[3] == FirstHead + FirstTail && ls[4] == SecondHead + SecondTail &&
      ls[5] == FirstHead + FirstTail && ls[6] == SecondHead + SecondTail
  {
    SplitRaw(ts, t, 10, 2);
    SplitCells(t);
    var cells := Cells(seq(10, _ => t));
    TwoSplitRows(10, 2, ts, cells, FirstHead + FirstTail, SecondHead + SecondTail);
  }

  /** Two rows that split alike give four lines after the header. */
  lemma TwoSplitRows(width: nat, height: nat, ts: seq<string>, cells: string, a: string, b: string)
    requires width == 10 && height == 2
    requires Offset(width, 0, height) <= |ts| && PixelTexts(ts)
    requires Splittable(cells) && RawLines(width, ts, height) == Pieces(cells) + Pieces(cells)
    requires |cells + "\n"| > Boundary
    requires Trim(Pieces(cells)[0]) == a && Trim(Pieces(cells)[1]) == b
    ensures PpmText(width, height, ts).Ok?
    ensures var ls := Lines(PpmText(width, height, ts).value);
      |ls| == 7 && ls[3] == a && ls[4] == b && ls[5] == a && ls[6] == b
  {
    PpmBodyLines(width, height, ts);
    var raw := RawLines(width, ts, height);
    assert |raw| == 4 && raw[0] == raw[2] == Pieces(cells)[0] && raw[1] == raw[3] == Pieces(cells)[1];
  }

  /** Lines 3 to 6 of the text of a 10 x 2 canvas of one colour: each row
      of 10 pixels is 120 characters long and is split once, into a line of
      17 numbers and one of 13. */
  lemma SplitExample(ps: seq<Color>)
    requires FilledTo(ps, 20, Peach())
    ensures Ppm(10, 2, ps).Ok?
    ensures var ls := Lines(Ppm(10, 2, ps).value);
      |ls| == 7 &&
      ls[3] == FirstHead + FirstTail && ls[4] == SecondHead + SecondTail &&
      ls[5] == FirstHead + FirstTail && ls[6] == SecondHead + SecondTail
  {
    PeachText();
    UniformOf(ps, Peach(), "255 204 153");
    SplitText(PpmStrs(ps), "255 204 153");
  }

  // ---------------------------------------------------------------------
  // A row whose only space in reach is its own trailing space

  function White(): Color { MakeColor(1.0, 1.0, 1.0) }

  function Yellow(): Color { MakeColor(1.0, 1.0, 0.0) }

  /** Five white pixels and one yellow pixel make a row of exactly 70
      characters before its line feed; the split falls on the row's own
      trailing space and leaves an empty line in the text. */
  lemma TrailingSpaceExample(ps: seq<Color>)
    requires |ps| == 6 && ps[5] == Yellow()
    requires forall i :: 0 <= i < 5 ==> ps[i] == White()
    ensures Ppm(6, 1, ps).Ok?
    ensures var ls := Lines(Ppm(6, 1, ps).value);
      |ls| == 5 && ls[4] == ""
  {
    var ts := PpmStrs(ps);
    assert PpmStr(White()) == "255 255 255";
    assert PpmStr(Yellow()) == "255 255 0";
    forall i | 0 <= i < 5 ensures ts[i] == "255 255 255" {
      PpmStrsAt(ps, i);
    }
    PpmStrsAt(ps, 5);
    PpmStrsArePixelTexts(ps);
    TrailingText(ts, "255 255 255", "255 255 0");
  }

  lemma TrailingText(ts: seq<string>, w: string, y: string)
    requires w == "255 255 255" && y == "255 255 0"
    requires |ts| == 6 && PixelTexts(ts) && ts[5] == y
    requires forall i :: 0 <= i < 5 ==> ts[i] == w
    ensures PpmText(6, 1, ts).Ok?
    ensures var ls := Lines(PpmText(6, 1, ts).value);
      |ls| == 5 && ls[4] == ""
  {
    TrailingCells(ts, w, y);
    TrailingSpaceSplit(Cells(ts));
    assert ts[0..6] == ts;
    OneSplitRow(6, ts, Cells(ts)[..Boundary - 1], " ");
  }

  /** A picture one row high whose row is split in two has five lines, the
      last two being the trimmed pieces. */
  lemma OneSplitRow(width: nat, ts: seq<string>, p: string, q: string)
    requires width <= |ts| && PixelTexts(ts)
    requires Splittable(Cells(ts[0..width])) && Pieces(Cells(ts[0..width])) == [p, q]
    ensures PpmText(width, 1, ts).Ok?
    ensures var ls := Lines(PpmText(width, 1, ts).value);
      |ls| == 5 && ls[3] == Trim(p) && ls[4] == Trim(q)
  {
    PpmTextLines(width, 1, ts);
    RawLinesSnoc(width, ts, 1);
    assert RawLines(width, ts, 1) == [p, q];
  }

  /** The cells of that row are 70 characters long and end in a space. */
  lemma TrailingCells(ts: seq<string>, w: string, y: string)
    requires w == "255 255 255" && y == "255 255 0"
    requires |ts| == 6 && ts[5] == y
    requires forall i :: 0 <= i < 5 ==> ts[i] == w
    ensures |Cells(ts)| == Boundary && Cells(ts)[Boundary - 1] == ' '
  {
    assert ts[..5] == seq(5, _ => w);
    assert ts == ts[..5] + [y];
    CellsRepeat(w, 5);
    CellsSnoc(ts[..5], y);
    RepLength(w + " ", 5);
  }

  // ---------------------------------------------------------------------
  // The test methods

  /** creating_a_canvas */
  method CreatingACanvas() returns (width: nat, height: nat, pixels: seq<Color>)
    ensures width == 10 && height == 20 && |pixels| == 200
    ensures forall i :: 0 <= i < |pixels| ==> pixels[i] == MakeColor(0.0, 0.0, 0.0)
  {
    var c := NewCanvas(10, 20);
    width, height, pixels := c.width, c.height, c.pixels[..];
  }

  /** writing_pixels_to_canvas */
  method WritingPixelsToCanvas() returns (p: Result<Color, CanvasError>)
    ensures p == Ok(MakeColor(1.0, 0.0, 0.0))
  {
    var c := NewCanvas(10, 20);
    var red := MakeColor(1.0, 0.0, 0.0);
    WriteCheckOnSized(10, 20, 2, 3);
    var r := c.WritePixel(2, 3, red);
    p := c.PixelAt(2, 3);
  }

  /** construct_ppm_header */
  method ConstructPpmHeader() returns (header: seq<string>)
    ensures header == ["P3", "5 3", "255"]
  {
    var c := NewCanvas(5, 3);
    var ppm := c.ToPpm();
    HeaderExample(c.pixels[..]);
    header := Lines(ppm.value)[..3];
  }

  /** construct_ppm_pixel_data */
  method ConstructPpmPixelData() returns (body: seq<string>)
    ensures body == ["255 0 0 0 0 0 0 0 0 0 0 0 0 0 0",
                     "0 0 0 0 0 0 0 128 0 0 0 0 0 0 0",
                     "0 0 0 0 0 0 0 0 0 0 0 0 0 0 255"]
  {
    var c := NewCanvas(5, 3);
    ghost var p0 := c.pixels[..];
    WriteCheckOnSized(5, 3, 0, 0);
    var r1 := c.WritePixel(0, 0, MakeColor(1.5, 0.0, 0.0));
    ghost var p1 := c.pixels[..];
    WriteCheckOnSized(5, 3, 2, 1);
    OffsetProduct(5, 2, 1);
    var r2 := c.WritePixel(2, 1, MakeColor(0.0, 0.5, 0.0));
    ghost var p2 := c.pixels[..];
    WriteCheckOnSized(5, 3, 4, 2);
    OffsetProduct(5, 4, 2);
    var r3 := c.WritePixel(4, 2, MakeColor(-0.5, 0.0, 1.0));
    PixelDataWrites(p0, p1, p2, c.pixels[..]);
    var ppm := c.ToPpm();
    PixelDataExample(c.pixels[..], c.width, c.height);
    LinesThreeToSix(Lines(ppm.value), "255 0 0 0 0 0 0 0 0 0 0 0 0 0 0",
      "0 0 0 0 0 0 0 128 0 0 0 0 0 0 0", "0 0 0 0 0 0 0 0 0 0 0 0 0 0 255");
    body := Lines(ppm.value)[3..6];
  }

  /** split_long_lines_in_ppm_files */
  method SplitLongLinesInPpmFiles() returns (body: seq<string>)
    ensures body == [FirstHead + FirstTail, SecondHead + SecondTail, FirstHead + FirstTail, SecondHead + SecondTail]
  {
    var c := NewCanvas(10, 2);
    var color := Peach();
    var y := 0;
    while y < c.height
      invariant c.width == 10 && c.height == 2 && fresh(c.pixels) && c.pixels.Length == 20
      invariant y <= 2 && FilledTo(c.pixels[..], 10 * y, color)
    {
      var x := 0;
      while x < c.width
        invariant c.width == 10 && c.height == 2 && fresh(c.pixels) && c.pixels.Length == 20
        invariant x <= 10 && FilledTo(c.pixels[..], 10 * y + x, color)
      {
        WriteCheckOnSized(10, 2, x, y);
        OffsetProduct(10, x, y);
        FillStep(c.pixels[..], 10 * y + x, color);
        var r := c.WritePixel(x, y, color);
        x := x + 1;
      }
      y := y + 1;
    }
    var ppm := c.ToPpm();
    SplitExample(c.pixels[..]);
    LinesThreeToSeven(Lines(ppm.value), FirstHead + FirstTail, SecondHead + SecondTail, FirstHead + FirstTail, SecondHead + SecondTail);
    body := Lines(ppm.value)[3..7];
  }

  /** ppm_files_terminate_with_newline */
  method PpmFilesTerminateWithNewline() returns (ppm: string)
    ensures ppm != [] && ppm[|ppm| - 1] == '\n'
  {
    var c := NewCanvas(5, 3);
    var r := c.ToPpm();
    HeaderExample(c.pixels[..]);
    ppm := r.value;
  }
}
