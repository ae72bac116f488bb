/** The canvas of src/canvas.rs: a row-major buffer of colours, written in
    place, read by coordinates, and serialised as plain PPM (P3) text. */
module Canvases {
  import opened Wrappers
  import opened Strings
  import opened Tuples
  import opened Colors

  /** The panics of the canvas: the coordinate assertion of `write_pixel`,
      an index or slice beyond the buffer, and the row that `to_ppm` cannot
      split. */
  datatype CanvasError = OutOfBounds | IndexOutOfRange | UnsplittableRow

  /** Rows whose text, line feed included, is longer than this are split. */
  const Boundary: nat := 70

  // ---------------------------------------------------------------------
  // Offsets

  /** The buffer index of pixel (x, y): x cells into row y, each row
      `width` cells after the one before it. */
  function Offset(width: nat, x: nat, y: nat): nat
    decreases y
  {
    if y == 0 then x else Offset(width, x, y - 1) + width
  }

  /** The offset is `width * y + x`, as `write_pixel` and `pixel_at`
      compute it. */
  lemma {:induction false} OffsetProduct(width: nat, x: nat, y: nat)
    ensures Offset(width, x, y) == width * y + x
    decreases y
  {
    if y > 0 {
      OffsetProduct(width, x, y - 1);
      assert width * y == width * (y - 1) + width;
    }
  }

  /** Pixel x of row y lies x cells past the start of the row. */
  lemma {:induction false} OffsetShift(width: nat, x: nat, y: nat)
    ensures Offset(width, x, y) == Offset(width, 0, y) + x
    decreases y
  {
    if y > 0 {
      OffsetShift(width, x, y - 1);
    }
  }

  /** Row k starts where row k - 1 ends. */
  lemma OffsetStep(width: nat, k: nat)
    requires k >= 1
    ensures Offset(width, 0, k - 1) + width == Offset(width, 0, k)
  {
  }

  /** Later rows start no earlier. */
  lemma {:induction false} OffsetMono(width: nat, y: nat, k: nat)
    requires y <= k
    ensures Offset(width, 0, y) <= Offset(width, 0, k)
    decreases k - y
  {
    if y < k {
      OffsetStep(width, y + 1);
      OffsetMono(width, y + 1, k);
    }
  }

  /** What `write_pixel` does before it assigns: the (permissive) coordinate
      assertion, then the index check of the Vec. */
  function WriteCheck(width: nat, height: nat, length: nat, x: nat, y: nat): Outcome<CanvasError>
  {
    if !(x <= width && y <= height) then Fail(OutOfBounds)
    else if Offset(width, x, y) >= length then Fail(IndexOutOfRange)
    else Pass
  }

  /** On a canvas of width * height pixels every coordinate inside the
      picture passes. So does x == width on any row but the last (for a
      non-zero width), and that write lands on the first pixel of the next
      row. Past the assertion the write fails with OutOfBounds, and
      (0, height) passes the assertion but fails the index check. */
  lemma WriteCheckOnSized(width: nat, height: nat, x: nat, y: nat)
    ensures x < width && y < height ==> WriteCheck(width, height, width * height, x, y) == Pass
    ensures width > 0 && y + 1 < height ==> WriteCheck(width, height, width * height, width, y) == Pass
    ensures Offset(width, width, y) == Offset(width, 0, y + 1)
    ensures x > width || y > height ==> WriteCheck(width, height, width * height, x, y) == Fail(OutOfBounds)
    ensures WriteCheck(width, height, width * height, 0, height) == Fail(IndexOutOfRange)
  {
    OffsetProduct(width, 0, height);
    OffsetShift(width, width, y);
    OffsetShift(width, x, y);
    OffsetStep(width, y + 1);
    if y + 1 < height {
      OffsetMono(width, y + 2, height);
      OffsetStep(width, y + 2);
    } else if y < height {
      OffsetMono(width, y + 1, height);
    }
  }

  // ---------------------------------------------------------------------
  // The serialisation, as functions of width, height and the pixel buffer

  function Header(width: nat, height: nat): string
  {
    "P3\n" + Dec(width) + " " + Dec(height) + "\n255\n"
  }

  /** The `ppm_str` of each pixel. */
  function PpmStrs(ps: seq<Color>): (ts: seq<string>)
    ensures |ts| == |ps|
  {
    seq(|ps|, i requires 0 <= i < |ps| => PpmStr(ps[i]))
  }

  /** The text at index i is the `ppm_str` of pixel i. */
  lemma PpmStrsAt(ps: seq<Color>, i: nat)
    requires i < |ps|
    ensures PpmStrs(ps)[i] == PpmStr(ps[i])
  {
  }

  /** Pieces of text, each followed by a space. */
  function Cells(ts: seq<string>): string
    decreases |ts|
  {
    if ts == [] then [] else Cells(ts[..|ts| - 1]) + ts[|ts| - 1] + " "
  }

  /** The text of a row before it is split: the `ppm_str` of each pixel
      followed by a space, then a line feed. */
  function EncodeRow(ts: seq<string>): string
  {
    Cells(ts) + "\n"
  }

  /** The single split of a long row: a line feed inserted before the last
      space among its first 70 characters. */
  function WrapRow(row: string): Result<string, CanvasError>
  {
    if |row| > Boundary then
      match RFind(row[..Boundary], ' ')
      case Some(idx) => Ok(row[..idx] + "\n" + row[idx..])
      case None => Err(UnsplittableRow)
    else Ok(row)
  }

  /** The text of row y, given the text of every pixel of the buffer: the
      row sliced out, encoded and wrapped, or the panic of the slice or of
      the split. */
  function RowText(width: nat, ts: seq<string>, y: nat): Result<string, CanvasError>
  {
    var offset := Offset(width, 0, y);
    if offset + width > |ts| then Err(IndexOutOfRange)
    else WrapRow(EncodeRow(ts[offset..offset + width]))
  }

  /** Text built so far followed by one more row, either of which may be
      a panic; an earlier panic wins. */
  function Append(prefix: Result<string, CanvasError>, row: Result<string, CanvasError>): Result<string, CanvasError>
  {
    match prefix
    case Err(e) => Err(e)
    case Ok(p) =>
      match row
      case Err(e) => Err(e)
      case Ok(r) => Ok(p + r)
  }

  /** The text of the first k rows; the first row that panics decides. */
  function RowsText(width: nat, ts: seq<string>, k: nat): Result<string, CanvasError>
    decreases k
  {
    if k == 0 then Ok([]) else Append(RowsText(width, ts, k - 1), RowText(width, ts, k - 1))
  }

  /** The text `to_ppm` has built after k rows: the header, then the rows. */
  function Body(width: nat, height: nat, ts: seq<string>, k: nat): Result<string, CanvasError>
  {
    match RowsText(width, ts, k)
    case Err(e) => Err(e)
    case Ok(rows) => Ok(Header(width, height) + rows)
  }

  /** The body, split into lines, each line trimmed, joined with line feeds
      and ended with one. */
  function PpmText(width: nat, height: nat, ts: seq<string>): Result<string, CanvasError>
  {
    match Body(width, height, ts, height)
    case Err(e) => Err(e)
    case Ok(body) => Ok(Join(TrimAll(Lines(body)), "\n") + "\n")
  }

  /** `to_ppm` of a canvas with the given buffer. */
  function Ppm(width: nat, height: nat, pixels: seq<Color>): Result<string, CanvasError>
  {
    PpmText(width, height, PpmStrs(pixels))
  }

  /** Once a row fails, the text of every longer prefix fails the same way:
      `to_ppm` stops at the first panic. */
  lemma {:induction false} RowsTextErrSticks(width: nat, ts: seq<string>, k: nat, m: nat)
    requires k <= m && RowsText(width, ts, k).Err?
    ensures RowsText(width, ts, m) == RowsText(width, ts, k)
    decreases m - k
  {
    if k < m {
      RowsTextErrSticks(width, ts, k, m - 1);
    }
  }

  /** The first failing row decides the outcome of the whole serialisation. */
  lemma PpmFailsAt(width: nat, height: nat, ts: seq<string>, k: nat)
    requires k <= height && RowsText(width, ts, k).Err?
    ensures PpmText(width, height, ts) == Err(RowsText(width, ts, k).error)
  {
    RowsTextErrSticks(width, ts, k, height);
  }

  /** One more row that slices and wraps without a panic extends the text. */
  lemma BodyStep(width: nat, height: nat, ts: seq<string>, k: nat, body: string, row: string)
    requires Body(width, height, ts, k) == Ok(body)
    requires RowText(width, ts, k) == Ok(row)
    ensures Body(width, height, ts, k + 1) == Ok(body + row)
  {
    var rows := RowsText(width, ts, k).value;
    assert body == Header(width, height) + rows;
    assert RowsText(width, ts, k + 1) == Ok(rows + row);
    assert body + row == Header(width, height) + (rows + row);
  }

  lemma BodyStart(width: nat, height: nat, ts: seq<string>, body: string)
    requires body == "" + Header(width, height)
    ensures Body(width, height, ts, 0) == Ok(body)
  {
    assert body == Header(width, height) + [];
  }

  lemma BodyFails(width: nat, height: nat, ts: seq<string>, k: nat, body: string)
    requires k < height && Body(width, height, ts, k) == Ok(body)
    requires RowText(width, ts, k).Err?
    ensures Body(width, height, ts, height) == Err(RowText(width, ts, k).error)
  {
    assert RowsText(width, ts, k + 1) == Err(RowText(width, ts, k).error);
    RowsTextErrSticks(width, ts, k + 1, height);
  }

  /** Row y of a buffer that holds it is the encoded slice of its pixels,
      wrapped. */
  lemma RowTextAt(width: nat, ps: seq<Color>, y: nat)
    requires Offset(width, 0, y) + width <= |ps|
    ensures var offset := Offset(width, 0, y);
      RowText(width, PpmStrs(ps), y) == WrapRow(EncodeRow(PpmStrs(ps[offset..offset + width])))
  {
    var offset := Offset(width, 0, y);
    PpmStrsSlice(ps, offset, offset + width);
    RowTextOf(width, PpmStrs(ps), y, PpmStrs(ps[offset..offset + width]));
  }

  /** The wrapped encoding of the slice of row y is the text of row y. */
  lemma RowTextOfEncoded(width: nat, ps: seq<Color>, y: nat, row: string, r: Result<string, CanvasError>)
    requires Offset(width, 0, y) + width <= |ps|
    requires row == EncodeRow(PpmStrs(ps[Offset(width, 0, y)..Offset(width, 0, y) + width]))
    requires r == WrapRow(row)
    ensures r == RowText(width, PpmStrs(ps), y)
  {
    RowTextAt(width, ps, y);
  }

  /** Row y of the texts is the wrapped encoding of whatever its slice is. */
  lemma RowTextOf(width: nat, ts: seq<string>, y: nat, row: seq<string>)
    requires Offset(width, 0, y) + width <= |ts|
    requires ts[Offset(width, 0, y)..Offset(width, 0, y) + width] == row
    ensures RowText(width, ts, y) == WrapRow(EncodeRow(row))
  {
  }

  /** The texts of a slice of pixels are the slice of their texts. */
  lemma PpmStrsSlice(ps: seq<Color>, lo: nat, hi: nat)
    requires lo <= hi <= |ps|
    ensures PpmStrs(ps)[lo..hi] == PpmStrs(ps[lo..hi])
  {
    var a, b := PpmStrs(ps)[lo..hi], PpmStrs(ps[lo..hi]);
    forall i | 0 <= i < |a| ensures a[i] == b[i] {
      PpmStrsAt(ps, lo + i);
      PpmStrsAt(ps[lo..hi], i);
    }
  }

  /** One more pixel adds its text and a space to the cells. */
  lemma EncodeCellsSnoc(ps: seq<Color>, p: Color)
    ensures Cells(PpmStrs(ps + [p])) == Cells(PpmStrs(ps)) + PpmStr(p) + " "
  {
    assert PpmStrs(ps + [p]) == PpmStrs(ps) + [PpmStr(p)];
    CellsSnoc(PpmStrs(ps), PpmStr(p));
  }

  /** One pass of the inner loop of `to_ppm` adds pixel j's text and a
      space to the cells of the pixels before it. */
  lemma EncodeStep(ps: seq<Color>, j: nat, row: string, p: Color)
    requires j < |ps| && p == ps[j] && row == Cells(PpmStrs(ps[..j]))
    ensures row + PpmStr(p) + " " == Cells(PpmStrs(ps[..j + 1]))
  {
    assert ps[..j + 1] == ps[..j] + [ps[j]];
    EncodeCellsSnoc(ps[..j], ps[j]);
  }

  /** Once every pixel is encoded, the line feed completes the row. */
  lemma EncodeDone(ps: seq<Color>, row: string)
    requires row == Cells(PpmStrs(ps[..|ps|]))
    ensures row + "\n" == EncodeRow(PpmStrs(ps))
  {
    assert ps[..|ps|] == ps;
  }

  // ---------------------------------------------------------------------
  // Properties of one row

  /** One more piece adds it and a space to the cells. */
  lemma CellsSnoc(ts: seq<string>, t: string)
    ensures Cells(ts + [t]) == Cells(ts) + t + " "
  {
    assert (ts + [t])[..|ts|] == ts;
  }

  /** What every pixel's text is like: 5 to 11 characters, trimmed, without
      a line feed, with a space among its first four characters. */
  predicate PixelText(t: string)
  {
    5 <= |t| <= 11 && Trimmed(t) && '\n' !in t && ' ' in t[..4]
  }

  predicate PixelTexts(ts: seq<string>)
  {
    forall i :: 0 <= i < |ts| ==> PixelText(ts[i])
  }

  lemma PpmStrsArePixelTexts(ps: seq<Color>)
    ensures PixelTexts(PpmStrs(ps))
  {
    forall i | 0 <= i < |ps| ensures PixelText(PpmStrs(ps)[i]) {
      PpmStrsAt(ps, i);
      PpmStrShape(ps[i]);
      PpmStrFirstSpace(ps[i]);
      var t := PpmStr(ps[i]);
      var k :| 0 <= k <= 3 && k < |t| && t[k] == ' ';
      assert t[..4][k] == ' ';
    }
  }

  /** A long row can be cut: there is a space among its first 70 characters. */
  predicate Splittable(cells: string)
  {
    |cells| >= Boundary ==> ' ' in cells[..Boundary]
  }

  lemma {:induction false} CellsNoNewline(ts: seq<string>)
    requires PixelTexts(ts)
    ensures '\n' !in Cells(ts)
    decreases |ts|
  {
    if ts != [] {
      CellsNoNewline(ts[..|ts| - 1]);
      assert PixelText(ts[|ts| - 1]);
    }
  }

  /** Every cell takes 6 to 12 characters (a pixel's text and its space). */
  lemma {:induction false} CellsLength(ts: seq<string>)
    requires PixelTexts(ts)
    ensures 6 * |ts| <= |Cells(ts)| <= 12 * |ts|
    decreases |ts|
  {
    if ts != [] {
      CellsLength(ts[..|ts| - 1]);
      assert PixelText(ts[|ts| - 1]);
    }
  }

  /** The cells begin with the first piece and its space. */
  lemma {:induction false} CellsFirst(ts: seq<string>)
    requires |ts| >= 1
    ensures ts[0] + " " <= Cells(ts)
    decreases |ts|
  {
    if |ts| > 1 {
      CellsFirst(ts[..|ts| - 1]);
    } else {
      assert ts[..0] == [];
    }
  }

  /** The cells are the pieces joined by single spaces, with one more space
      at the end. */
  lemma {:induction false} CellsJoin(ts: seq<string>)
    requires |ts| >= 1
    ensures Cells(ts) == Join(ts, " ") + " "
    decreases |ts|
  {
    if |ts| == 1 {
      assert ts[..0] == [];
    } else {
      var init := ts[..|ts| - 1];
      CellsJoin(init);
      assert init + [ts[|ts| - 1]] == ts;
      JoinSnoc(init, ts[|ts| - 1], " ");
    }
  }

  /** The cells of pixel texts can always be cut: the first text has a
      space by index 3. */
  lemma CellsSplittable(ts: seq<string>)
    requires PixelTexts(ts)
    ensures Splittable(Cells(ts))
  {
    var cells := Cells(ts);
    if |cells| >= Boundary {
      assert ts != [];
      CellsFirst(ts);
      assert PixelText(ts[0]);
      var k :| 0 <= k < 4 && ts[0][..4][k] == ' ';
      assert cells[..Boundary][k] == ts[0][k];
    }
  }

  /** Joined trimmed, non-empty pieces are trimmed. */
  lemma {:induction false} JoinTrimmed(ts: seq<string>, sep: string)
    requires |ts| >= 1
    requires forall i :: 0 <= i < |ts| ==> ts[i] != [] && Trimmed(ts[i])
    ensures Join(ts, sep) != [] && Trimmed(Join(ts, sep))
    ensures Join(ts, sep)[0] == ts[0][0]
    ensures Join(ts, sep)[|Join(ts, sep)| - 1] == ts[|ts| - 1][|ts[|ts| - 1]| - 1]
    decreases |ts|
  {
    if |ts| > 1 {
      JoinTrimmed(ts[1..], sep);
    }
  }

  /** An unsplit data line: trimming the cells leaves the pixels' texts
      joined by single spaces, as in "255 0 0 0 0 0 ...". */
  lemma TrimmedCells(ts: seq<string>)
    requires |ts| >= 1 && PixelTexts(ts)
    ensures Trim(Cells(ts)) == Join(ts, " ")
  {
    CellsJoin(ts);
    forall i | 0 <= i < |ts| ensures ts[i] != [] && Trimmed(ts[i]) {
      assert PixelText(ts[i]);
    }
    JoinTrimmed(ts, " ");
    TrimTrailingSpace(Join(ts, " "));
  }

  /** The lines one row adds to the body: its cells, or, when the row with
      its line feed is longer than 70 characters, its cells cut before the
      last space among the first 70. */
  function Pieces(cells: string): (ls: seq<string>)
    requires Splittable(cells)
    ensures 1 <= |ls| <= 2
    ensures |ls| == 2 <==> |cells + "\n"| > Boundary
    ensures |ls| == 2 ==> |ls[0]| < Boundary && ls[0] + ls[1] == cells && ls[1][0] == ' '
    ensures |ls| == 1 ==> ls[0] == cells
  {
    if |cells| >= Boundary then
      var idx := RFind(cells[..Boundary], ' ').value;
      assert cells == cells[..idx] + cells[idx..];
      [cells[..idx], cells[idx..]]
    else [cells]
  }

  /** Wrapping a row never panics when its cells can be cut; the wrapped
      text ends with a line feed and its lines are the row's pieces. */
  lemma WrapRowLines(cells: string)
    requires '\n' !in cells && Splittable(cells)
    ensures WrapRow(cells + "\n").Ok?
    ensures var w := WrapRow(cells + "\n").value;
      |w| > 0 && w[|w| - 1] == '\n' && Lines(w) == Pieces(cells)
  {
    var row := cells + "\n";
    if |cells| >= Boundary {
      assert row[..Boundary] == cells[..Boundary];
      var idx := RFind(cells[..Boundary], ' ').value;
      var w := row[..idx] + "\n" + row[idx..];
      var second := cells[idx..];
      assert w == cells[..idx] + "\n" + (second + "\n");
      assert '\n' !in cells[..idx] by {
        forall i | 0 <= i < idx ensures cells[..idx][i] != '\n' {
          assert cells[..idx][i] == cells[i];
        }
      }
      assert '\n' !in second by {
        forall i | 0 <= i < |second| ensures second[i] != '\n' {
          assert second[i] == cells[idx + i];
        }
      }
      assert second + "\n" + "" == second + "\n";
      LinesCons(second, "");
      assert Lines(second + "\n") == [second];
      LinesCons(cells[..idx], second + "\n");
      assert WrapRow(row) == Ok(w);
      assert Lines(w) == [cells[..idx], second];
      assert Pieces(cells) == [cells[..idx], second];
    } else {
      assert row == cells + "\n" + "";
      LinesCons(cells, "");
      assert WrapRow(row) == Ok(row);
      assert Lines(row) == [cells];
      assert Pieces(cells) == [cells];
    }
  }

  /** Cells that hold no line feed and can be cut if long. */
  predicate RowReady(cells: string)
  {
    '\n' !in cells && Splittable(cells)
  }

  /** The cells of any row of pixel texts are ready to be wrapped. */
  lemma CellsReady(ts: seq<string>)
    requires PixelTexts(ts)
    ensures RowReady(Cells(ts))
  {
    CellsSplittable(ts);
    CellsNoNewline(ts);
  }

  /** A row of at most 5 pixels is never split; one of 12 or more always is. */
  lemma SplitByWidth(ts: seq<string>)
    requires PixelTexts(ts)
    ensures |ts| <= 5 ==> |EncodeRow(ts)| <= Boundary
    ensures |ts| >= 12 ==> |EncodeRow(ts)| > Boundary
  {
    CellsLength(ts);
  }

  /** Cells that are one character too long are cut at their own trailing
      space: the second line is a lone space and trims to an empty line. */
  lemma TrailingSpaceSplit(cells: string)
    requires |cells| == Boundary && cells[Boundary - 1] == ' '
    ensures Splittable(cells)
    ensures Pieces(cells) == [cells[..Boundary - 1], " "]
    ensures Trim(Pieces(cells)[1]) == ""
  {
    assert cells[..Boundary][Boundary - 1] == ' ';
    assert cells[Boundary - 1..] == " ";
    assert Pieces(cells) == [cells[..Boundary - 1], " "];
    assert Trim(" ") == "";
  }

  // ---------------------------------------------------------------------
  // Properties of the whole text, over the cells of the rows

  predicate AllReady(cs: seq<string>)
  {
    forall i :: 0 <= i < |cs| ==> RowReady(cs[i])
  }

  /** The rows with the given cells, each wrapped, one after the other;
      the first row that cannot be split decides. */
  function WrapAll(cs: seq<string>): Result<string, CanvasError>
    decreases |cs|
  {
    if cs == [] then Ok([]) else Append(WrapAll(cs[..|cs| - 1]), WrapRow(cs[|cs| - 1] + "\n"))
  }

  /** The pieces of each row, one after the other. */
  function AllPieces(cs: seq<string>): seq<string>
    requires AllReady(cs)
    decreases |cs|
  {
    if cs == [] then [] else AllPieces(cs[..|cs| - 1]) + Pieces(cs[|cs| - 1])
  }

  /** How many rows are longer than 70 characters with their line feed. */
  function LongRows(cs: seq<string>): nat
    decreases |cs|
  {
    if cs == [] then 0
    else LongRows(cs[..|cs| - 1]) + (if |cs[|cs| - 1] + "\n"| > Boundary then 1 else 0)
  }

  /** Rows that can be cut wrap without a panic, and the lines of their text
      are their pieces in order. */
  lemma {:induction false} WrapAllLines(cs: seq<string>)
    requires AllReady(cs)
    ensures WrapAll(cs).Ok?
    ensures var t := WrapAll(cs).value;
      (t == [] || t[|t| - 1] == '\n') && Lines(t) == AllPieces(cs)
    decreases |cs|
  {
    if cs != [] {
      var init := cs[..|cs| - 1];
      var last := cs[|cs| - 1];
      assert AllReady(init);
      WrapAllLines(init);
      var prefix := WrapAll(init).value;
      assert RowReady(last);
      WrapRowLines(last);
      var w := WrapRow(last + "\n").value;
      assert WrapAll(cs) == Ok(prefix + w);
      LinesAppend(prefix, w);
      assert AllPieces(cs) == AllPieces(init) + Pieces(last);
      assert (prefix + w)[|prefix + w| - 1] == w[|w| - 1];
    }
  }

  /** Each row gives one line, and one more when it is split. */
  lemma {:induction false} AllPiecesCount(cs: seq<string>)
    requires AllReady(cs)
    ensures |AllPieces(cs)| == |cs| + LongRows(cs)
    decreases |cs|
  {
    if cs != [] {
      var init := cs[..|cs| - 1];
      assert AllReady(init);
      AllPiecesCount(init);
      assert AllPieces(cs) == AllPieces(init) + Pieces(cs[|cs| - 1]);
    }
  }

  // ---------------------------------------------------------------------
  // Properties of the whole text, over the texts of the buffer

  /** The cells of the first k rows of the buffer. */
  function RowCells(width: nat, ts: seq<string>, k: nat): (cs: seq<string>)
    requires Offset(width, 0, k) <= |ts|
    ensures |cs| == k
    decreases k
  {
    if k == 0 then []
    else
      OffsetStep(width, k);
      var offset := Offset(width, 0, k - 1);
      RowCells(width, ts, k - 1) + [Cells(ts[offset..offset + width])]
  }

  lemma {:induction false} RowCellsReady(width: nat, ts: seq<string>, k: nat)
    requires Offset(width, 0, k) <= |ts| && PixelTexts(ts)
    ensures AllReady(RowCells(width, ts, k))
    decreases k
  {
    if k > 0 {
      OffsetStep(width, k);
      RowCellsReady(width, ts, k - 1);
      var offset := Offset(width, 0, k - 1);
      var row := ts[offset..offset + width];
      assert PixelTexts(row) by {
        forall i | 0 <= i < |row| ensures PixelText(row[i]) {
          assert row[i] == ts[offset + i];
        }
      }
      CellsReady(row);
      var cs := RowCells(width, ts, k);
      assert cs[..k - 1] == RowCells(width, ts, k - 1);
      assert cs[k - 1] == Cells(row);
    }
  }

  /** While the buffer holds the first k rows, their text is that of their
      cells, wrapped. */
  lemma {:induction false} RowsTextCells(width: nat, ts: seq<string>, k: nat)
    requires Offset(width, 0, k) <= |ts|
    ensures RowsText(width, ts, k) == WrapAll(RowCells(width, ts, k))
    decreases k
  {
    if k > 0 {
      OffsetStep(width, k);
      RowsTextCells(width, ts, k - 1);
      RowsTextCellsStep(width, ts, k);
    }
  }

  /** The inductive step of RowsTextCells: row k - 1 is wrapped the same way
      on both sides. */
  lemma RowsTextCellsStep(width: nat, ts: seq<string>, k: nat)
    requires k > 0 && Offset(width, 0, k) <= |ts|
    requires Offset(width, 0, k - 1) + width <= |ts|
    requires RowsText(width, ts, k - 1) == WrapAll(RowCells(width, ts, k - 1))
    ensures RowsText(width, ts, k) == WrapAll(RowCells(width, ts, k))
  {
    var cs := RowCells(width, ts, k);
    var offset := Offset(width, 0, k - 1);
    assert cs[..k - 1] == RowCells(width, ts, k - 1);
    assert cs[k - 1] == Cells(ts[offset..offset + width]);
    RowTextOf(width, ts, k - 1, ts[offset..offset + width]);
  }

  /** The lines of the first k rows, before trimming. */
  function RawLines(width: nat, ts: seq<string>, k: nat): seq<string>
    requires Offset(width, 0, k) <= |ts| && PixelTexts(ts)
  {
    RowCellsReady(width, ts, k);
    AllPieces(RowCells(width, ts, k))
  }

  /** How many of the first k rows are split. */
  function Splits(width: nat, ts: seq<string>, k: nat): nat
    requires Offset(width, 0, k) <= |ts|
  {
    LongRows(RowCells(width, ts, k))
  }

  /** While the buffer holds the first k rows, their text is built without a
      panic and its lines are the rows' pieces in order. */
  lemma RowsTextLines(width: nat, ts: seq<string>, k: nat)
    requires Offset(width, 0, k) <= |ts| && PixelTexts(ts)
    ensures RowsText(width, ts, k).Ok?
    ensures var t := RowsText(width, ts, k).value;
      (t == [] || t[|t| - 1] == '\n') && Lines(t) == RawLines(width, ts, k)
  {
    RowCellsReady(width, ts, k);
    RowsTextCells(width, ts, k);
    WrapAllLines(RowCells(width, ts, k));
  }

  /** The lines of row k follow those of the rows before it. */
  lemma RawLinesSnoc(width: nat, ts: seq<string>, k: nat)
    requires k >= 1 && Offset(width, 0, k) <= |ts| && PixelTexts(ts)
    ensures Offset(width, 0, k - 1) + width == Offset(width, 0, k)
    ensures var offset := Offset(width, 0, k - 1);
      RowReady(Cells(ts[offset..offset + width])) &&
      RawLines(width, ts, k) == RawLines(width, ts, k - 1) + Pieces(Cells(ts[offset..offset + width]))
  {
    OffsetStep(width, k);
    RowCellsReady(width, ts, k);
    RowCellsReady(width, ts, k - 1);
    var cs := RowCells(width, ts, k);
    assert cs[..k - 1] == RowCells(width, ts, k - 1);
    assert AllReady(cs);
    assert RowReady(cs[k - 1]);
  }

  /** Rows that are not long give one line each. */
  lemma {:induction false} ShortPieces(cs: seq<string>)
    requires AllReady(cs)
    requires forall i :: 0 <= i < |cs| ==> |cs[i]| < Boundary
    ensures AllPieces(cs) == cs
    decreases |cs|
  {
    if cs != [] {
      var init := cs[..|cs| - 1];
      assert AllReady(init);
      ShortPieces(init);
      assert |cs[|cs| - 1]| < Boundary;
      assert cs == init + [cs[|cs| - 1]];
    }
  }

  /** Rows of at most five pixels are never split: each row is one line. */
  lemma NarrowRawLines(width: nat, ts: seq<string>, k: nat)
    requires width <= 5 && Offset(width, 0, k) <= |ts| && PixelTexts(ts)
    ensures RawLines(width, ts, k) == RowCells(width, ts, k)
  {
    var cs := RowCells(width, ts, k);
    RowCellsReady(width, ts, k);
    forall y | 0 <= y < k ensures |cs[y]| < Boundary {
      NarrowRowCells(width, ts, k, y);
    }
    ShortPieces(cs);
  }

  lemma NarrowRowCells(width: nat, ts: seq<string>, k: nat, y: nat)
    requires width <= 5 && Offset(width, 0, k) <= |ts| && PixelTexts(ts) && y < k
    ensures |RowCells(width, ts, k)[y]| < Boundary
  {
    RowCellsAt(width, ts, k, y);
    var offset := Offset(width, 0, y);
    SlicePixelTexts(ts, offset, offset + width);
    CellsLength(ts[offset..offset + width]);
  }

  /** Entry y of the cells of the first k rows is the cells of row y. */
  lemma {:induction false} RowCellsAt(width: nat, ts: seq<string>, k: nat, y: nat)
    requires Offset(width, 0, k) <= |ts| && y < k
    ensures Offset(width, 0, y) + width <= Offset(width, 0, k)
    ensures var offset := Offset(width, 0, y);
      RowCells(width, ts, k)[y] == Cells(ts[offset..offset + width])
    decreases k
  {
    OffsetStep(width, k);
    if y < k - 1 {
      RowCellsAt(width, ts, k - 1, y);
    }
  }

  /** A slice of pixel texts is pixel texts. */
  lemma SlicePixelTexts(ts: seq<string>, lo: nat, hi: nat)
    requires lo <= hi <= |ts| && PixelTexts(ts)
    ensures PixelTexts(ts[lo..hi])
  {
    forall i | 0 <= i < hi - lo ensures PixelText(ts[lo..hi][i]) {
      assert ts[lo..hi][i] == ts[lo + i];
    }
  }

  /** In rows at most five pixels wide, trimmed raw line y is the texts of
      row y joined by single spaces. */
  lemma NarrowRowLine(width: nat, ts: seq<string>, k: nat, y: nat)
    requires 1 <= width <= 5 && Offset(width, 0, k) <= |ts| && PixelTexts(ts)
    requires y < k
    ensures Offset(width, 0, y) + width <= |ts|
    ensures var offset := Offset(width, 0, y);
      |RawLines(width, ts, k)| == k &&
      Trim(RawLines(width, ts, k)[y]) == Join(ts[offset..offset + width], " ")
  {
    NarrowRawLines(width, ts, k);
    RowCellsAt(width, ts, k, y);
    var offset := Offset(width, 0, y);
    SlicePixelTexts(ts, offset, offset + width);
    RowLineTrim(RawLines(width, ts, k), y, ts[offset..offset + width]);
  }

  lemma RowLineTrim(raw: seq<string>, y: nat, row: seq<string>)
    requires y < |raw| && |row| >= 1 && PixelTexts(row) && raw[y] == Cells(row)
    ensures Trim(raw[y]) == Join(row, " ")
  {
    TrimmedCells(row);
  }

  /** A successful `to_ppm` reads back as its lines. */
  lemma PpmTextLines(width: nat, height: nat, ts: seq<string>)
    requires Offset(width, 0, height) <= |ts| && PixelTexts(ts)
    ensures PpmText(width, height, ts).Ok?
    ensures Lines(PpmText(width, height, ts).value) == PpmLines(width, height, ts)
  {
    PpmTextProperties(width, height, ts);
  }

  /** After the three header lines, line 3 + i of a successful `to_ppm` is
      raw line i trimmed, and there is nothing more. */
  lemma PpmBodyLines(width: nat, height: nat, ts: seq<string>)
    requires Offset(width, 0, height) <= |ts| && PixelTexts(ts)
    ensures PpmText(width, height, ts).Ok?
    ensures var ls := Lines(PpmText(width, height, ts).value);
      var raw := RawLines(width, ts, height);
      |ls| == 3 + |raw| && forall i :: 0 <= i < |raw| ==> ls[3 + i] == Trim(raw[i])
  {
    PpmTextLines(width, height, ts);
    var raw := RawLines(width, ts, height);
    AfterHeader(HeaderLines(width, height), TrimAll(raw));
  }

  /** Past three header lines, line 3 + i is line i of what follows. */
  lemma AfterHeader(hl: seq<string>, t: seq<string>)
    requires |hl| == 3
    ensures |hl + t| == 3 + |t| && forall i :: 0 <= i < |t| ==> (hl + t)[3 + i] == t[i]
  {
  }

  /** In a picture at most five pixels wide, line 3 + y of `to_ppm` is the
      texts of row y joined by single spaces. */
  lemma NarrowPpmLine(width: nat, height: nat, ts: seq<string>, y: nat)
    requires 1 <= width <= 5 && Offset(width, 0, height) <= |ts| && PixelTexts(ts)
    requires y < height
    ensures PpmText(width, height, ts).Ok?
    ensures Offset(width, 0, y) + width <= |ts|
    ensures var ls := Lines(PpmText(width, height, ts).value);
      var offset := Offset(width, 0, y);
      |ls| == 3 + height && ls[3 + y] == Join(ts[offset..offset + width], " ")
  {
    PpmTextLines(width, height, ts);
    NarrowRowLine(width, ts, height, y);
    var raw := RawLines(width, ts, height);
    var ls := PpmLines(width, height, ts);
    assert ls[3 + y] == TrimAll(raw)[y];
  }

  /** Each row adds one line, and one more when it is split. */
  lemma RawLinesCount(width: nat, ts: seq<string>, k: nat)
    requires Offset(width, 0, k) <= |ts| && PixelTexts(ts)
    ensures |RawLines(width, ts, k)| == k + Splits(width, ts, k)
  {
    RowCellsReady(width, ts, k);
    AllPiecesCount(RowCells(width, ts, k));
  }

  /** Once the buffer runs short of row k, the text panics with an index
      error: the split panic is never the one raised. */
  lemma {:induction false} RowsTextFails(width: nat, ts: seq<string>, k: nat)
    requires Offset(width, 0, k) > |ts| && PixelTexts(ts)
    ensures RowsText(width, ts, k) == Err(IndexOutOfRange)
    decreases k
  {
    OffsetStep(width, k);
    if Offset(width, 0, k - 1) > |ts| {
      RowsTextFails(width, ts, k - 1);
    } else {
      RowsTextLines(width, ts, k - 1);
    }
  }

  /** The three header lines. */
  function HeaderLines(width: nat, height: nat): seq<string>
  {
    ["P3", Dec(width) + " " + Dec(height), "255"]
  }

  lemma DecNoNewline(n: nat)
    ensures '\n' !in Dec(n)
  {
    assert AllDigits(Dec(n));
  }

  /** The header splits into its three lines, ahead of those of the rows. */
  lemma HeaderText(width: nat, height: nat, rows: string)
    requires rows == [] || rows[|rows| - 1] == '\n'
    ensures Lines(Header(width, height) + rows) == HeaderLines(width, height) + Lines(rows)
  {
    DecNoNewline(width);
    DecNoNewline(height);
    HeaderShape(Dec(width), Dec(height), rows);
  }

  lemma HeaderShape(a: string, b: string, rows: string)
    requires '\n' !in a && '\n' !in b
    requires rows == [] || rows[|rows| - 1] == '\n'
    ensures Lines("P3\n" + a + " " + b + "\n255\n" + rows) == ["P3", a + " " + b, "255"] + Lines(rows)
  {
    SpacedNoNewline(a, b);
    var h := "P3\n" + a + " " + b + "\n255\n";
    AppendAssoc("P3\n", a, " ");
    AppendAssoc("P3\n", a + " ", b);
    HeaderLinesText(a + " " + b, h);
    LinesAppend(h, rows);
  }

  lemma SpacedNoNewline(a: string, b: string)
    requires '\n' !in a && '\n' !in b
    ensures '\n' !in a + " " + b
  {
    var d := a + " " + b;
    forall i | 0 <= i < |d| ensures d[i] != '\n' {
      if i < |a| { assert d[i] == a[i]; }
      else if i > |a| { assert d[i] == b[i - |a| - 1]; }
    }
  }

  /** The three header lines, before the rows. */
  lemma HeaderLinesText(d: string, h: string)
    requires '\n' !in d
    requires h == "P3\n" + d + "\n255\n"
    ensures Lines(h) == ["P3", d, "255"] && h[|h| - 1] == '\n'
  {
    assert h == "P3" + "\n" + d + "\n" + "255" + "\n";
    ThreeLines("P3", d, "255", h);
  }

  lemma ThreeLines(p: string, d: string, q: string, h: string)
    requires '\n' !in p && '\n' !in d && '\n' !in q
    requires h == p + "\n" + d + "\n" + q + "\n"
    ensures Lines(h) == [p, d, q]
  {
    var t := q + "\n";
    var m := d + "\n" + t;
    assert q + "\n" + [] == t;
    LinesCons(q, []);
    LinesCons(d, t);
    var x := p + "\n";
    AppendAssoc(x, d, "\n");
    AppendAssoc(x, d + "\n", q);
    AppendAssoc(x, d + "\n" + q, "\n");
    AppendAssoc(d + "\n", q, "\n");
    LinesCons(p, m);
  }

  /** The header lines are trimmed already. */
  lemma HeaderLinesTrimmed(width: nat, height: nat)
    ensures TrimAll(HeaderLines(width, height)) == HeaderLines(width, height)
    ensures forall i :: 0 <= i < 3 ==> Trimmed(HeaderLines(width, height)[i])
  {
    DimsTrimmed(Dec(width), Dec(height));
    AllTrimmed(HeaderLines(width, height));
  }

  lemma DimsTrimmed(a: string, b: string)
    requires a != [] && b != [] && AllDigits(a) && AllDigits(b)
    ensures Trimmed(a + " " + b)
  {
    var d := a + " " + b;
    assert d[0] == a[0] && d[|d| - 1] == b[|b| - 1];
  }

  /** The lines of a successful `to_ppm`: the header, then every row piece
      trimmed. */
  function PpmLines(width: nat, height: nat, ts: seq<string>): seq<string>
    requires Offset(width, 0, height) <= |ts| && PixelTexts(ts)
  {
    HeaderLines(width, height) + TrimAll(RawLines(width, ts, height))
  }

  /** When the buffer holds every row, `to_ppm` succeeds and is its lines
      joined with line feeds, with one more at the end. */
  lemma PpmLayout(width: nat, height: nat, ts: seq<string>)
    requires Offset(width, 0, height) <= |ts| && PixelTexts(ts)
    ensures PpmText(width, height, ts) == Ok(Join(PpmLines(width, height, ts), "\n") + "\n")
  {
    RowsTextLines(width, ts, height);
    var rows := RowsText(width, ts, height).value;
    assert Body(width, height, ts, height) == Ok(Header(width, height) + rows);
    HeaderText(width, height, rows);
    HeaderLinesTrimmed(width, height);
    TrimAllAppend(HeaderLines(width, height), RawLines(width, ts, height));
    assert TrimAll(Lines(Header(width, height) + rows)) == PpmLines(width, height, ts);
  }

  /** `to_ppm` succeeds exactly when the buffer holds width * height pixels;
      otherwise it panics on a slice, never on a split. */
  lemma PpmOutcome(width: nat, height: nat, pixels: seq<Color>)
    ensures Ppm(width, height, pixels).Ok? <==> width * height <= |pixels|
    ensures Ppm(width, height, pixels).Err? ==> Ppm(width, height, pixels).error == IndexOutOfRange
  {
    var ts := PpmStrs(pixels);
    PpmStrsArePixelTexts(pixels);
    OffsetProduct(width, 0, height);
    if Offset(width, 0, height) <= |ts| {
      PpmLayout(width, height, ts);
    } else {
      RowsTextFails(width, ts, height);
      PpmFailsAt(width, height, ts, height);
    }
  }

  /** The joined header lines, whatever follows them, begin with the header. */
  lemma HeaderPrefix(width: nat, height: nat, rest: seq<string>)
    ensures var out := Join(HeaderLines(width, height) + rest, "\n") + "\n";
      |Header(width, height)| <= |out| && out[..|Header(width, height)|] == Header(width, height)
  {
    JoinedHeader("P3", Dec(width) + " " + Dec(height), "255", rest);
    assert Header(width, height) == "P3" + "\n" + (Dec(width) + " " + Dec(height)) + "\n" + "255" + "\n";
  }

  lemma JoinedHeader(a: string, b: string, c: string, rest: seq<string>)
    ensures var out := Join([a, b, c] + rest, "\n") + "\n";
      var h := a + "\n" + b + "\n" + c + "\n";
      |h| <= |out| && out[..|h|] == h
  {
    var hs := [a, b, c] + rest;
    assert hs == [a] + ([b] + ([c] + rest));
    JoinFront(a, [b] + ([c] + rest), "\n");
    JoinFront(b, [c] + rest, "\n");
    var out := Join(hs, "\n") + "\n";
    var h := a + "\n" + b + "\n" + c + "\n";
    if rest == [] {
      assert [c] + rest == [c];
      assert out == h;
    } else {
      JoinFront(c, rest, "\n");
      assert out == h + (Join(rest, "\n") + "\n");
    }
  }

  /** The shape of a successful `to_ppm`: it begins with the header, ends
      with a line feed, reads back as its lines, has 3 + height + (split
      rows) lines, and every line is trimmed. */
  lemma PpmProperties(width: nat, height: nat, pixels: seq<Color>)
    requires width * height <= |pixels|
    ensures PixelTexts(PpmStrs(pixels)) && Offset(width, 0, height) <= |pixels|
    ensures Ppm(width, height, pixels).Ok?
    ensures var out := Ppm(width, height, pixels).value;
      && |Header(width, height)| <= |out| && out[..|Header(width, height)|] == Header(width, height)
      && out[|out| - 1] == '\n'
      && Lines(out) == PpmLines(width, height, PpmStrs(pixels))
      && |Lines(out)| == 3 + height + Splits(width, PpmStrs(pixels), height)
      && forall i :: 0 <= i < |Lines(out)| ==> Trimmed(Lines(out)[i])
  {
    PpmStrsArePixelTexts(pixels);
    OffsetProduct(width, 0, height);
    PpmTextProperties(width, height, PpmStrs(pixels));
  }

  /** Whatever the pixels, the first three lines of the text of a canvas
      whose buffer holds every row are "P3", the width and height, and
      "255", and the text ends with a line feed. */
  lemma PpmHeaderLines(width: nat, height: nat, pixels: seq<Color>)
    requires width * height <= |pixels|
    ensures Ppm(width, height, pixels).Ok?
    ensures var out := Ppm(width, height, pixels).value;
      && |Lines(out)| >= 3 && Lines(out)[..3] == HeaderLines(width, height)
      && out != [] && out[|out| - 1] == '\n'
  {
    PpmProperties(width, height, pixels);
  }

  lemma PpmTextProperties(width: nat, height: nat, ts: seq<string>)
    requires Offset(width, 0, height) <= |ts| && PixelTexts(ts)
    ensures PpmText(width, height, ts).Ok?
    ensures var out := PpmText(width, height, ts).value;
      && |Header(width, height)| <= |out| && out[..|Header(width, height)|] == Header(width, height)
      && out[|out| - 1] == '\n'
      && Lines(out) == PpmLines(width, height, ts)
      && |Lines(out)| == 3 + height + Splits(width, ts, height)
      && forall i :: 0 <= i < |Lines(out)| ==> Trimmed(Lines(out)[i])
  {
    PpmLayout(width, height, ts);
    RawLinesCount(width, ts, height);
    var raw := RawLines(width, ts, height);
    var ls := PpmLines(width, height, ts);
    PpmLinesShape(width, height, ts);
    LinesOfJoin(ls);
    HeaderPrefix(width, height, TrimAll(raw));
  }

  /** Every line of a successful `to_ppm` is trimmed and holds no line feed. */
  lemma PpmLinesShape(width: nat, height: nat, ts: seq<string>)
    requires Offset(width, 0, height) <= |ts| && PixelTexts(ts)
    ensures var ls := PpmLines(width, height, ts);
      |ls| >= 3 && forall i :: 0 <= i < |ls| ==> '\n' !in ls[i] && Trimmed(ls[i])
  {
    var raw := RawLines(width, ts, height);
    var ls := PpmLines(width, height, ts);
    var hl := HeaderLines(width, height);
    HeaderLinesTrimmed(width, height);
    DecNoNewline(width);
    DecNoNewline(height);
    HeaderShape(Dec(width), Dec(height), []);
    assert Lines(Header(width, height) + []) == hl;
    RowsTextLines(width, ts, height);
    forall i | 0 <= i < |ls| ensures '\n' !in ls[i] && Trimmed(ls[i]) {
      if i < 3 {
        assert ls[i] == hl[i];
      } else {
        assert ls[i] == Trim(raw[i - 3]);
        TrimSpec(raw[i - 3]);
      }
    }
  }

  // ---------------------------------------------------------------------
  // The canvas object

  class Canvas {
    const width: nat
    const height: nat
    const pixels: array<Color>

    /** `Canvas::new`: the buffer is taken as given; nothing ties its length
        to width * height. */
    constructor (width: nat, height: nat, pixels: seq<Color>)
      ensures this.width == width && this.height == height
      ensures fresh(this.pixels) && this.pixels[..] == pixels
    {
      this.width := width;
      this.height := height;
      this.pixels := new Color[|pixels|](i requires 0 <= i < |pixels| => pixels[i]);
    }

    /** The buffer holds exactly width * height pixels, as `canvas` makes it. */
    predicate Sized()
      reads this
    {
      pixels.Length == width * height
    }

    /** `pixel_at`: the colour at offset width * y + x; there is no
        coordinate check, only the index check of the Vec. */
    function PixelAt(x: nat, y: nat): (r: Result<Color, CanvasError>)
      reads this, pixels
      ensures r.Ok? <==> Offset(width, x, y) < pixels.Length
      ensures r.Ok? ==> r.value == pixels[Offset(width, x, y)]
      ensures r.Err? ==> r.error == IndexOutOfRange
    {
      var offset := Offset(width, x, y);
      if offset < pixels.Length then Ok(pixels[offset]) else Err(IndexOutOfRange)
    }

    /** `write_pixel`: when the coordinates pass the assertion and the
        offset lies in the buffer, that one cell is overwritten and reads
        back as the colour; otherwise (a panic) nothing changes. */
    method WritePixel(x: nat, y: nat, color: Color) returns (r: Outcome<CanvasError>)
      modifies pixels
      ensures r == WriteCheck(width, height, pixels.Length, x, y)
      ensures r.Pass? ==> pixels[..] == old(pixels[..])[Offset(width, x, y) := color]
      ensures r.Pass? ==> PixelAt(x, y) == Ok(color)
      ensures r.Fail? ==> pixels[..] == old(pixels[..])
      ensures Sized() <==> old(Sized())
    {
      r := WriteCheck(width, height, pixels.Length, x, y);
      if r.Fail? {
        return;
      }
      var offset := width * y + x;
      OffsetProduct(width, x, y);
      pixels[offset] := color;
    }

    /** The cells of `width` pixels starting at `offset`, built one pixel
        at a time as the inner loop of `to_ppm` does. */
    method EncodeRowAt(offset: nat) returns (row: string)
      requires offset + width <= pixels.Length
      ensures row == EncodeRow(PpmStrs(pixels[offset..offset + width]))
    {
      row := "";
      var j := 0;
      var ps := pixels[offset..offset + width];
      while j < width
        invariant j <= width
        invariant row == Cells(PpmStrs(ps[..j]))
      {
        var p := ps[j];
        EncodeStep(ps, j, row, p);
        row := row + PpmStr(p);
        row := row + " ";
        j := j + 1;
      }
      EncodeDone(ps, row);
      row := row + "\n";
    }

    /** One iteration of the row loop of `to_ppm`: slice row y and encode
        it; a row longer than 70 characters then gets a line feed inserted
        before the last space among its first 70, and one without such a
        space panics. */
    method RowAt(y: nat) returns (r: Result<string, CanvasError>)
      ensures r == RowText(width, PpmStrs(pixels[..]), y)
    {
      var offset := Offset(width, 0, y);
      if offset + width > pixels.Length {
        return Err(IndexOutOfRange);
      }
      var row := EncodeRowAt(offset);
      ghost var ps := pixels[..];
      ghost var encoded := row;
      assert pixels[offset..offset + width] == ps[offset..offset + width];
      r := Ok(row);
      if |row| > Boundary {
        var sub := row[..Boundary];
        match RFind(sub, ' ')
        case Some(idx) =>
          row := row[..idx] + "\n" + row[idx..];
          r := Ok(row);
        case None =>
          r := Err(UnsplittableRow);
      }
      RowTextOfEncoded(width, ps, y, encoded, r);
    }

    /** The header and row loop of `to_ppm`: the body text after every row
        is pushed, or the panic of the first row that fails. */
    method BuildBody() returns (r: Result<string, CanvasError>)
      ensures r == Body(width, height, PpmStrs(pixels[..]), height)
    {
      ghost var ts := PpmStrs(pixels[..]);
      var body := "";
      body := body + Header(width, height);
      BodyStart(width, height, ts, body);
      var y := 0;
      while y < height
        invariant y <= height
        invariant ts == PpmStrs(pixels[..])
        invariant Body(width, height, ts, y) == Ok(body)
      {
        var row := RowAt(y);
        if row.Err? {
          BodyFails(width, height, ts, y, body);
          return Err(row.error);
        }
        BodyStep(width, height, ts, y, body, row.value);
        body := body + row.value;
        y := y + 1;
      }
      return Ok(body);
    }

    /** `to_ppm`: builds the body row by row as the source does, then trims
        and joins its lines. It changes nothing, so serialising twice gives
        the same text. */
    method ToPpm() returns (r: Result<string, CanvasError>)
      ensures r == Ppm(width, height, pixels[..])
    {
      var body := BuildBody();
      if body.Err? {
        return Err(body.error);
      }
      var trimmed := TrimAll(Lines(body.value));
      var result := Join(trimmed, "\n");
      result := result + "\n";
      return Ok(result);
    }
  }
}
