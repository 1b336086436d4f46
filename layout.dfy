/**
 * The table's geometry: column widths from content lengths, the image size,
 * the rectangle of every cell, the text origin inside it, and the list of
 * drawing operations the header and the data rows produce.
 */
module Layout {
  import opened Values
  import opened TableSettings
  import opened ContentLength

  /** A box (left, top, right, bottom), as Pillow's `textbbox` returns and `rectangle` takes. */
  datatype Box = Box(left: int, top: int, right: int, bottom: int)

  /** A loaded font, seen only through the bounding box of a string drawn at the origin. */
  datatype Font = Font(bbox: string -> Box)

  /** One drawing call on the table layer. */
  datatype DrawOp =
    | Rectangle(box: Box, fill: Color, outline: Color, width: int)
    | Label(x: real, y: real, text: string, fill: Color)

  /** Which table line a cell belongs to. */
  datatype Kind = Header | Body

  const Black := Color(0, 0, 0, 255)

  function Width(b: Box): int { b.right - b.left }

  function Height(b: Box): int { b.bottom - b.top }

  /** The width of the reference letter "A", which scales content lengths to pixels. */
  function LetterWidth(font: Font): int { Width(font.bbox("A")) }

  function LetterHeight(font: Font): int { Height(font.bbox("A")) }

  /** Every column index below `n` has a content length. */
  predicate Covers(lens: map<int, nat>, n: int)
  {
    forall j :: 0 <= j < n ==> j in lens
  }

  /** Every data row's cells have content lengths. */
  predicate RowsCovered(lens: map<int, nat>, rows: seq<seq<Value>>)
  {
    forall k :: 0 <= k < |rows| ==> Covers(lens, |rows[k]|)
  }

  /** The pixel width of column `c`: its content length times the letter width. */
  function ColumnWidth(lens: map<int, nat>, lw: int, c: int): int
    requires c in lens
  {
    lens[c] * lw
  }

  /** The total width of the first `k` columns. */
  function ColumnsWidth(lens: map<int, nat>, lw: int, k: nat): int
    requires Covers(lens, k)
  {
    if k == 0 then 0 else ColumnsWidth(lens, lw, k - 1) + ColumnWidth(lens, lw, k - 1)
  }

  /** The image size (width, height) for a table with `rowCount` data rows. */
  function ImageSize(s: Settings, lens: map<int, nat>, lw: int, rowCount: nat): (int, int)
    requires Covers(lens, |lens|)
  {
    (ColumnsWidth(lens, lw, |lens|) + 2 * s.tableMargin,
     s.cellHeight * (rowCount + 1) + 2 * s.tableMargin)
  }

  /**
   * The rectangle of the cell in column `c` on table line `line` (0 is the
   * header, data row r is line r + 1).
   */
  function CellBox(s: Settings, lens: map<int, nat>, lw: int, line: nat, c: nat): Box
    requires Covers(lens, c + 1)
  {
    var x := s.tableMargin + ColumnsWidth(lens, lw, c);
    var y := s.tableMargin + line * s.cellHeight;
    Box(x, y, x + ColumnWidth(lens, lw, c), y + s.cellHeight)
  }

  /**
   * Where a cell's text is drawn. `(x, y)` is the cell's position before the
   * table margin is added, `(cw, ch)` the cell's size and `(tw, th)` the
   * size of the measured text.
   */
  function TextOrigin(align: string, x: int, y: int, margin: int, pad: Padding,
                      cw: int, ch: int, tw: int, th: int): (real, real)
  {
    var x0 := (x + margin + pad.left) as real;
    var y0 := (y + margin + pad.top) as real;
    var dy := (ch - th - pad.top - pad.bottom) as real / 2.0;
    if align == "center" then
      (x0 + (cw - tw - pad.left - pad.right) as real / 2.0, y0 + dy)
    else if align == "left" then
      (x0 + pad.left as real, y0 + dy)
    else
      (x0, y0)
  }

  /**
   * Where text lands for each alignment: centred text has as much room left
   * of it as right of it inside the padding; centred and left-aligned text
   * are centred vertically inside the padding; left-aligned text starts
   * twice the left padding from the cell's edge; any other alignment keeps
   * the padded top-left corner.
   */
  lemma TextPlacement(align: string, x: int, y: int, margin: int, pad: Padding,
                      cw: int, ch: int, tw: int, th: int)
    // centred: as much room left of the text as right of it, inside the padding
    ensures var r := TextOrigin(align, x, y, margin, pad, cw, ch, tw, th);
      align == "center" ==> r.0 - (x + margin + pad.left) as real == (x + margin + cw - pad.right) as real - (r.0 + tw as real)
    // centred and left-aligned text are centred vertically inside the padding
    ensures var r := TextOrigin(align, x, y, margin, pad, cw, ch, tw, th);
      align == "center" || align == "left" ==>
        r.1 - (y + margin + pad.top) as real == (y + margin + ch - pad.bottom) as real - (r.1 + th as real)
    // left-aligned text starts twice the left padding from the cell's left edge
    ensures var r := TextOrigin(align, x, y, margin, pad, cw, ch, tw, th);
      align == "left" ==> r.0 - (x + margin) as real == 2.0 * pad.left as real
    // any other alignment keeps the padded top-left corner
    ensures var r := TextOrigin(align, x, y, margin, pad, cw, ch, tw, th);
      align != "center" && align != "left" ==> r == ((x + margin + pad.left) as real, (y + margin + pad.top) as real)
  {
  }

  /** The text drawn for a cell: header labels upper-cased, data cells as `str()` gives them. */
  function CellText(kind: Kind, v: Value): string
  {
    match kind
    case Header => Upper(Str(v))
    case Body => Str(v)
  }

  function CellFill(s: Settings, kind: Kind): Color
  {
    match kind
    case Header => s.headerColor
    case Body => s.cellColor
  }

  function CellAlign(s: Settings, kind: Kind): string
  {
    match kind
    case Header => s.headerCellTextAlign
    case Body => s.cellTextAlign
  }

  /** The outlined, filled rectangle for a cell at `(x, y)` before the margin is added. */
  function RectangleOp(s: Settings, x: int, y: int, cw: int, ch: int, fill: Color): DrawOp
  {
    var x' := x + s.tableMargin;
    var y' := y + s.tableMargin;
    Rectangle(Box(x', y', x' + cw, y' + ch), fill, s.tableBorderColor, s.tableBorderThickness)
  }

  /** The text of a cell at `(x, y)` of width `cw`, measured with the font and aligned. */
  function TextOp(s: Settings, font: Font, kind: Kind, v: Value, x: int, y: int, cw: int): DrawOp
  {
    var text := CellText(kind, v);
    var bbox := font.bbox(text);
    var origin := TextOrigin(CellAlign(s, kind), x, y, s.tableMargin, s.cellPadding,
                             cw, s.cellHeight, Width(bbox), Height(bbox));
    Label(origin.0, origin.1, text, Black)
  }

  /** The two drawing calls for one cell. */
  function CellOps(s: Settings, font: Font, kind: Kind, v: Value, x: int, y: int, cw: int): seq<DrawOp>
  {
    [RectangleOp(s, x, y, cw, s.cellHeight, CellFill(s, kind)), TextOp(s, font, kind, v, x, y, cw)]
  }

  /** The drawing calls for the cells of one table line, left to right. */
  function LineOps(s: Settings, font: Font, kind: Kind, cells: seq<Value>, line: nat,
                   lens: map<int, nat>, lw: int): seq<DrawOp>
    requires Covers(lens, |cells|)
  {
    if cells == [] then []
    else
      var c := |cells| - 1;
      LineOps(s, font, kind, cells[..c], line, lens, lw)
        + CellOps(s, font, kind, cells[c], ColumnsWidth(lens, lw, c), line * s.cellHeight, ColumnWidth(lens, lw, c))
  }

  /** The drawing calls for the header. */
  function HeaderOps(s: Settings, font: Font, cols: seq<Value>, lens: map<int, nat>, lw: int): seq<DrawOp>
    requires Covers(lens, |cols|)
  {
    LineOps(s, font, Header, cols, 0, lens, lw)
  }

  /** The drawing calls for the first `n` data rows, top to bottom. */
  function RowsOps(s: Settings, font: Font, rows: seq<seq<Value>>, n: nat, lens: map<int, nat>, lw: int): seq<DrawOp>
    requires RowsCovered(lens, rows) && n <= |rows|
  {
    if n == 0 then []
    else RowsOps(s, font, rows, n - 1, lens, lw) + LineOps(s, font, Body, rows[n - 1], n, lens, lw)
  }

  /** The drawing calls for all data rows. */
  function BodyOps(s: Settings, font: Font, rows: seq<seq<Value>>, lens: map<int, nat>, lw: int): seq<DrawOp>
    requires RowsCovered(lens, rows)
  {
    RowsOps(s, font, rows, |rows|, lens, lw)
  }

  /** The box lies within the horizontal band [x0, x1] and the vertical band [y0, y1]. */
  predicate Within(b: Box, x0: int, y0: int, x1: int, y1: int)
  {
    x0 <= b.left <= b.right <= x1 && y0 <= b.top <= b.bottom <= y1
  }

  /** Every rectangle among `ops` lies within the given bands. */
  predicate RectanglesWithin(ops: seq<DrawOp>, x0: int, y0: int, x1: int, y1: int)
  {
    forall i :: 0 <= i < |ops| && ops[i].Rectangle? ==> Within(ops[i].box, x0, y0, x1, y1)
  }

  // ---------------------------------------------------------------------
  // Properties

  lemma RectanglesWithinConcat(a: seq<DrawOp>, b: seq<DrawOp>, x0: int, y0: int, x1: int, y1: int)
    requires RectanglesWithin(a, x0, y0, x1, y1) && RectanglesWithin(b, x0, y0, x1, y1)
    ensures RectanglesWithin(a + b, x0, y0, x1, y1)
  {
    forall i | 0 <= i < |a + b| && (a + b)[i].Rectangle?
      ensures Within((a + b)[i].box, x0, y0, x1, y1)
    {
      if i >= |a| {
        assert (a + b)[i] == b[i - |a|];
      }
    }
  }

  /** The drawing calls of column `c` of a line, with the origin the source accumulates for it. */
  function ColumnOps(s: Settings, font: Font, kind: Kind, cells: seq<Value>, line: nat,
                     lens: map<int, nat>, lw: int, c: nat): seq<DrawOp>
    requires Covers(lens, |cells|) && c < |cells|
  {
    CellOps(s, font, kind, cells[c], ColumnsWidth(lens, lw, c), line * s.cellHeight, ColumnWidth(lens, lw, c))
  }

  /** Each cell of a line owns two consecutive drawing calls, in column order. */
  lemma {:induction false} LineOpsAt(s: Settings, font: Font, kind: Kind, cells: seq<Value>, line: nat,
                                     lens: map<int, nat>, lw: int, c: nat)
    requires Covers(lens, |cells|)
    requires c < |cells|
    ensures |LineOps(s, font, kind, cells, line, lens, lw)| == 2 * |cells|
    ensures LineOps(s, font, kind, cells, line, lens, lw)[2 * c] == ColumnOps(s, font, kind, cells, line, lens, lw, c)[0]
    ensures LineOps(s, font, kind, cells, line, lens, lw)[2 * c + 1] == ColumnOps(s, font, kind, cells, line, lens, lw, c)[1]
  {
    var last := |cells| - 1;
    var front := LineOps(s, font, kind, cells[..last], line, lens, lw);
    var here := ColumnOps(s, font, kind, cells, line, lens, lw, c);
    LineOpsLength(s, font, kind, cells[..last], line, lens, lw);
    if c < last {
      LineOpsAt(s, font, kind, cells[..last], line, lens, lw, c);
      assert cells[..last][c] == cells[c];
      assert ColumnOps(s, font, kind, cells[..last], line, lens, lw, c) == here;
    }
  }

  /**
   * A cell's first drawing call is its rectangle, at CellBox and filled
   * with the colour of its line; the second is its text: the upper-cased
   * label in the header, `str()` of the value in a data row.
   */
  lemma ColumnOpsShape(s: Settings, font: Font, kind: Kind, cells: seq<Value>, line: nat,
                       lens: map<int, nat>, lw: int, c: nat)
    requires Covers(lens, |cells|) && c < |cells|
    ensures ColumnOps(s, font, kind, cells, line, lens, lw, c)[0]
         == Rectangle(CellBox(s, lens, lw, line, c), CellFill(s, kind), s.tableBorderColor, s.tableBorderThickness)
    ensures ColumnOps(s, font, kind, cells, line, lens, lw, c)[1].Label?
    ensures ColumnOps(s, font, kind, cells, line, lens, lw, c)[1].text == CellText(kind, cells[c])
  {
  }

  /** Drawing one more cell of a line appends that cell's two calls. */
  lemma LineOpsStep(s: Settings, font: Font, kind: Kind, cells: seq<Value>, line: nat,
                    lens: map<int, nat>, lw: int, c: nat)
    requires Covers(lens, |cells|) && c < |cells|
    ensures LineOps(s, font, kind, cells[..c + 1], line, lens, lw)
         == LineOps(s, font, kind, cells[..c], line, lens, lw) + ColumnOps(s, font, kind, cells, line, lens, lw, c)
  {
    assert cells[..c + 1][..c] == cells[..c];
  }

  /** Drawing the cell at column `c`, at the origin the loop has accumulated, extends the calls already made for the line. */
  lemma LineOpsExtend(s: Settings, font: Font, kind: Kind, cells: seq<Value>, line: nat,
                      lens: map<int, nat>, lw: int, c: nat, prefix: seq<DrawOp>, x: int, y: int, cw: int)
    requires Covers(lens, |cells|) && c < |cells|
    requires x == ColumnsWidth(lens, lw, c) && y == line * s.cellHeight && cw == lens[c] * lw
    ensures prefix + LineOps(s, font, kind, cells[..c], line, lens, lw) + CellOps(s, font, kind, cells[c], x, y, cw)
         == prefix + LineOps(s, font, kind, cells[..c + 1], line, lens, lw)
  {
    LineOpsStep(s, font, kind, cells, line, lens, lw, c);
    var done := LineOps(s, font, kind, cells[..c], line, lens, lw);
    var cell := CellOps(s, font, kind, cells[c], x, y, cw);
    assert cell == ColumnOps(s, font, kind, cells, line, lens, lw, c);
    assert prefix + done + cell == prefix + (done + cell);
  }

  /** Drawing data row `n` extends the calls already made for the rows above it. */
  lemma RowsOpsExtend(s: Settings, font: Font, rows: seq<seq<Value>>, n: nat, lens: map<int, nat>, lw: int,
                      prefix: seq<DrawOp>)
    requires RowsCovered(lens, rows) && n < |rows|
    ensures prefix + RowsOps(s, font, rows, n, lens, lw) + LineOps(s, font, Body, rows[n], n + 1, lens, lw)
         == prefix + RowsOps(s, font, rows, n + 1, lens, lw)
  {
    var prior := RowsOps(s, font, rows, n, lens, lw);
    var line := LineOps(s, font, Body, rows[n], n + 1, lens, lw);
    assert prefix + prior + line == prefix + (prior + line);
  }

  lemma {:induction false} LineOpsLength(s: Settings, font: Font, kind: Kind, cells: seq<Value>, line: nat,
                                         lens: map<int, nat>, lw: int)
    requires Covers(lens, |cells|)
    ensures |LineOps(s, font, kind, cells, line, lens, lw)| == 2 * |cells|
  {
    if cells != [] {
      LineOpsLength(s, font, kind, cells[..|cells| - 1], line, lens, lw);
    }
  }

  /**
   * Cells tile the table: a cell's right edge is the next column's left
   * edge, its bottom edge the next line's top edge, the first column and
   * the header start at the margin, and the last column and the last data
   * row end one margin short of the image's edge.
   */
  lemma CellsTile(s: Settings, lens: map<int, nat>, lw: int, rowCount: nat, line: nat, c: nat)
    requires Dense(lens)
    requires c < |lens|
    ensures CellBox(s, lens, lw, line, c).left == (if c == 0 then s.tableMargin else CellBox(s, lens, lw, line, c - 1).right)
    ensures CellBox(s, lens, lw, line, c).top == (if line == 0 then s.tableMargin else CellBox(s, lens, lw, line - 1, c).bottom)
    ensures c == |lens| - 1 ==> CellBox(s, lens, lw, line, c).right + s.tableMargin == ImageSize(s, lens, lw, rowCount).0
    ensures line == rowCount ==> CellBox(s, lens, lw, line, c).bottom + s.tableMargin == ImageSize(s, lens, lw, rowCount).1
  {
    assert (line + 1) * s.cellHeight == line * s.cellHeight + s.cellHeight;
    if line > 0 {
      assert line * s.cellHeight == (line - 1) * s.cellHeight + s.cellHeight;
    }
  }

  /** With non-negative widths, the first columns are never wider than more columns. */
  lemma {:induction false} ColumnsWidthMonotone(lens: map<int, nat>, lw: int, j: nat, k: nat)
    requires 0 <= lw
    requires j <= k && Covers(lens, k)
    ensures 0 <= ColumnsWidth(lens, lw, j) <= ColumnsWidth(lens, lw, k)
  {
    if j < k {
      ColumnsWidthMonotone(lens, lw, j, k - 1);
    } else if j > 0 {
      ColumnsWidthMonotone(lens, lw, j - 1, j - 1);
    }
  }

  /**
   * With a non-negative letter width, cell height and margin, every cell of
   * the header and of the data rows lies inside the image, within the margin.
   */
  lemma CellInsideImage(s: Settings, lens: map<int, nat>, lw: int, rowCount: nat, line: nat, c: nat)
    requires 0 <= lw && 0 <= s.cellHeight && 0 <= s.tableMargin
    requires Dense(lens)
    requires c < |lens| && line <= rowCount
    ensures var (w, h) := ImageSize(s, lens, lw, rowCount);
            Within(CellBox(s, lens, lw, line, c), s.tableMargin, s.tableMargin, w - s.tableMargin, h - s.tableMargin)
  {
    ColumnsWidthMonotone(lens, lw, c + 1, |lens|);
    ColumnsWidthMonotone(lens, lw, c, c);
    assert line * s.cellHeight + s.cellHeight <= s.cellHeight * (rowCount + 1) by {
      assert line * s.cellHeight <= rowCount * s.cellHeight by {
        NonNegativeProduct(rowCount - line, s.cellHeight);
      }
    }
    NonNegativeProduct(line, s.cellHeight);
  }

  lemma NonNegativeProduct(a: int, b: int)
    requires 0 <= a && 0 <= b
    ensures 0 <= a * b
  {
  }

  /** Every rectangle a line draws lies inside the image, within the margin. */
  lemma {:induction false} LineRectanglesInside(s: Settings, font: Font, kind: Kind, cells: seq<Value>,
                                                line: nat, lens: map<int, nat>, lw: int, rowCount: nat)
    requires 0 <= lw && 0 <= s.cellHeight && 0 <= s.tableMargin
    requires Dense(lens) && Covers(lens, |cells|) && line <= rowCount
    ensures var (w, h) := ImageSize(s, lens, lw, rowCount);
            RectanglesWithin(LineOps(s, font, kind, cells, line, lens, lw),
                             s.tableMargin, s.tableMargin, w - s.tableMargin, h - s.tableMargin)
  {
    if cells != [] {
      var (w, h) := ImageSize(s, lens, lw, rowCount);
      var m := s.tableMargin;
      var c := |cells| - 1;
      var front := LineOps(s, font, kind, cells[..c], line, lens, lw);
      var back := ColumnOps(s, font, kind, cells, line, lens, lw, c);
      assert LineOps(s, font, kind, cells, line, lens, lw) == front + back;
      LineRectanglesInside(s, font, kind, cells[..c], line, lens, lw, rowCount);
      assert c in lens;
      CellInsideImage(s, lens, lw, rowCount, line, c);
      ColumnOpsShape(s, font, kind, cells, line, lens, lw, c);
      assert RectanglesWithin(back, m, m, w - m, h - m) by {
        assert |back| == 2 && !back[1].Rectangle?;
      }
      RectanglesWithinConcat(front, back, m, m, w - m, h - m);
    }
  }

  /** Every rectangle the first `n` data rows draw lies inside the image, within the margin. */
  lemma {:induction false} RowsRectanglesInside(s: Settings, font: Font, rows: seq<seq<Value>>, n: nat,
                                                lens: map<int, nat>, lw: int)
    requires 0 <= lw && 0 <= s.cellHeight && 0 <= s.tableMargin
    requires Dense(lens) && RowsCovered(lens, rows) && n <= |rows|
    ensures var (w, h) := ImageSize(s, lens, lw, |rows|);
            RectanglesWithin(RowsOps(s, font, rows, n, lens, lw),
                             s.tableMargin, s.tableMargin, w - s.tableMargin, h - s.tableMargin)
  {
    if n > 0 {
      var (w, h) := ImageSize(s, lens, lw, |rows|);
      var m := s.tableMargin;
      RowsRectanglesInside(s, font, rows, n - 1, lens, lw);
      LineRectanglesInside(s, font, Body, rows[n - 1], n, lens, lw, |rows|);
      RectanglesWithinConcat(RowsOps(s, font, rows, n - 1, lens, lw), LineOps(s, font, Body, rows[n - 1], n, lens, lw),
                             m, m, w - m, h - m);
    }
  }

  lemma CellIgnoresUnusedSettings(s: Settings, font: Font, kind: Kind, v: Value, x: int, y: int, cw: int,
                                  cellWidth: int, headerPadding: Padding)
    ensures CellOps(s.(cellWidth := cellWidth, headerCellPadding := headerPadding), font, kind, v, x, y, cw)
         == CellOps(s, font, kind, v, x, y, cw)
  {
    var s' := s.(cellWidth := cellWidth, headerCellPadding := headerPadding);
    assert s'.cellPadding == s.cellPadding && s'.cellHeight == s.cellHeight && s'.tableMargin == s.tableMargin;
    assert CellAlign(s', kind) == CellAlign(s, kind) && CellFill(s', kind) == CellFill(s, kind);
    assert TextOp(s', font, kind, v, x, y, cw) == TextOp(s, font, kind, v, x, y, cw);
    assert RectangleOp(s', x, y, cw, s'.cellHeight, CellFill(s', kind)) == RectangleOp(s, x, y, cw, s.cellHeight, CellFill(s, kind));
  }

  /**
   * The layout never reads the fixed cell width nor the header padding:
   * changing either leaves every drawing call of a line unchanged.
   */
  lemma {:induction false} LineIgnoresUnusedSettings(s: Settings, font: Font, kind: Kind, cells: seq<Value>,
                                                     line: nat, lens: map<int, nat>, lw: int,
                                                     cellWidth: int, headerPadding: Padding)
    requires Covers(lens, |cells|)
    ensures LineOps(s.(cellWidth := cellWidth, headerCellPadding := headerPadding), font, kind, cells, line, lens, lw)
         == LineOps(s, font, kind, cells, line, lens, lw)
  {
    if cells != [] {
      var c := |cells| - 1;
      LineIgnoresUnusedSettings(s, font, kind, cells[..c], line, lens, lw, cellWidth, headerPadding);
      CellIgnoresUnusedSettings(s, font, kind, cells[c], ColumnsWidth(lens, lw, c), line * s.cellHeight,
                                ColumnWidth(lens, lw, c), cellWidth, headerPadding);
    }
  }
}
