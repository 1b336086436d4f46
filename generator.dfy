/**
 * The table image generator: an object whose stages — load the document,
 * create the image layers, draw the header, draw the rows, composite and
 * save — each set fields that the later stages read.
 */
module Generator {
  import opened Wrappers
  import opened Values
  import opened TableSettings
  import opened ContentLength
  import opened Layout

  /** The parts of the JSON document the generator reads. */
  datatype JsonDoc = JsonDoc(tableName: Option<string>, header: seq<Value>, data: seq<seq<Value>>)

  /** The two reading failures that are logged and swallowed. */
  datatype ReadError = FileNotFound | JsonDecodeError

  /** How loading ended: loaded, a logged reading failure, or a `KeyError` escaping the call. */
  datatype LoadOutcome = Loaded | Logged(reason: ReadError) | Raised(error: KeyError)

  /** What a layer starts from: transparent, a solid colour, or a picture stretched to the layer's size. */
  datatype Base = Transparent | Solid(color: Color) | Picture(path: string)

  /** An RGBA image layer with the drawing calls made on it. */
  datatype Layer = Layer(width: int, height: int, base: Base, ops: seq<DrawOp>)

  /** The table layer alpha-composited over the background layer. */
  datatype Image = Composite(background: Layer, overlay: Layer)

  /** An image written to a file. */
  datatype SavedFile = SavedFile(path: string, image: Image)

  /** Python's `s[:stop]`: the first `stop` elements, or all but the last `-stop` when `stop` is negative. */
  function SlicePrefix<T>(s: seq<T>, stop: int): (r: seq<T>)
    ensures |r| <= |s| && r == s[..|r|]
    ensures 0 <= stop ==> |r| == if stop < |s| then stop else |s|
    ensures stop < 0 ==> |r| == if |s| + stop < 0 then 0 else |s| + stop
  {
    var n := if 0 <= stop then stop else |s| + stop;
    s[..if n < 0 then 0 else if n < |s| then n else |s|]
  }

  /** The background layer: the configured picture when there is one and it opens, else the solid colour. */
  function BackgroundLayer(s: Settings, width: int, height: int, opens: bool): (r: Layer)
    ensures r.width == width && r.height == height && r.ops == []
    ensures r.base.Picture? <==> s.backgroundImage.Some? && s.backgroundImage.value != "" && opens
    ensures r.base.Picture? ==> r.base.path == s.backgroundImage.value
    ensures !r.base.Picture? ==> r.base == Solid(s.backgroundColor)
  {
    match s.backgroundImage
    case Some(path) =>
      if path != "" && opens then Layer(width, height, Picture(path), [])
      else Layer(width, height, Solid(s.backgroundColor), [])
    case None => Layer(width, height, Solid(s.backgroundColor), [])
  }

  /** The picture a whole generation pass produces. */
  function RenderedTable(s: Settings, font: Font, cols: seq<Value>, rows: seq<seq<Value>>,
                         lens: map<int, nat>, lw: int, backgroundOpens: bool): Image
    requires Covers(lens, |lens|) && Covers(lens, |cols|) && RowsCovered(lens, rows)
  {
    var (w, h) := ImageSize(s, lens, lw, |rows|);
    Composite(BackgroundLayer(s, w, h, backgroundOpens),
              Layer(w, h, Transparent, HeaderOps(s, font, cols, lens, lw) + BodyOps(s, font, rows, lens, lw)))
  }

  /**
   * With non-negative letter width, cell height and margin, every rectangle
   * of a generated table lies inside the picture, within the margin.
   */
  lemma RenderedRectanglesInside(s: Settings, font: Font, cols: seq<Value>, rows: seq<seq<Value>>,
                                 lens: map<int, nat>, lw: int, backgroundOpens: bool)
    requires 0 <= lw && 0 <= s.cellHeight && 0 <= s.tableMargin
    requires Dense(lens) && Covers(lens, |cols|) && RowsCovered(lens, rows)
    ensures var image := RenderedTable(s, font, cols, rows, lens, lw, backgroundOpens);
            var m := s.tableMargin;
            image.background.width == image.overlay.width && image.background.height == image.overlay.height
            && RectanglesWithin(image.overlay.ops, m, m, image.overlay.width - m, image.overlay.height - m)
  {
    var (w, h) := ImageSize(s, lens, lw, |rows|);
    var m := s.tableMargin;
    LineRectanglesInside(s, font, Header, cols, 0, lens, lw, |rows|);
    RowsRectanglesInside(s, font, rows, |rows|, lens, lw);
    RectanglesWithinConcat(HeaderOps(s, font, cols, lens, lw), BodyOps(s, font, rows, lens, lw), m, m, w - m, h - m);
  }

  /**
   * Under the default settings, whatever the table and the font (with a
   * non-negative letter width), every rectangle of a generated table lies
   * inside the picture, within the 40-pixel margin.
   */
  lemma DefaultsDrawInside(font: Font, cols: seq<Value>, rows: seq<seq<Value>>,
                           lens: map<int, nat>, lw: int, backgroundOpens: bool)
    requires 0 <= lw
    requires Dense(lens) && Covers(lens, |cols|) && RowsCovered(lens, rows)
    ensures var image := RenderedTable(Defaults, font, cols, rows, lens, lw, backgroundOpens);
            RectanglesWithin(image.overlay.ops, 40, 40, image.overlay.width - 40, image.overlay.height - 40)
  {
    RenderedRectanglesInside(Defaults, font, cols, rows, lens, lw, backgroundOpens);
  }

  class TableImageGenerator {
    const settings: Settings
    const font: Font
    const letterWidth: int
    const letterHeight: int

    var tableName: Option<string>
    var cols: Option<seq<Value>>
    var rows: Option<seq<seq<Value>>>
    var cellsContentLen: Option<map<int, nat>>

    var background: Option<Layer>
    var tableImage: Option<Layer>
    var image: Option<Image>

    /** A content-length dictionary, once computed, has the keys 0 .. len - 1. */
    ghost predicate Valid()
      reads this
    {
      cellsContentLen.Some? ==> Dense(cellsContentLen.value)
    }

    /** A fresh generator; the font is loaded and the letter "A" measured. */
    constructor (settings: Settings, font: Font)
      ensures Valid()
      ensures this.settings == settings && this.font == font
      ensures letterWidth == LetterWidth(font) && letterHeight == LetterHeight(font)
      ensures tableName.None? && cols.None? && rows.None? && cellsContentLen.None?
      ensures background.None? && tableImage.None? && image.None?
    {
      this.settings := settings;
      this.font := font;
      var letterSize := font.bbox("A");
      letterWidth := letterSize.right - letterSize.left;
      letterHeight := letterSize.bottom - letterSize.top;
      tableName, cols, rows, cellsContentLen := None, None, None, None;
      background, tableImage, image := None, None, None;
    }

    /**
     * Loads a read document: keeps the first `colLimit` header entries and
     * the first `rowLimit` rows, then computes the content lengths. A
     * reading failure is logged and changes nothing; a row wider than the
     * kept header raises `KeyError` after header and rows were stored.
     */
    method ReadFromJson(file: Result<JsonDoc, ReadError>) returns (outcome: LoadOutcome)
      requires Valid()
      modifies this`tableName, this`cols, this`rows, this`cellsContentLen
      ensures Valid()
      ensures file.Failure? ==> outcome == Logged(file.error)
      ensures file.Failure? ==> unchanged(this`tableName, this`cols, this`rows, this`cellsContentLen)
      ensures file.Success? ==>
                tableName == file.value.tableName
                && cols == Some(SlicePrefix(file.value.header, settings.colLimit))
                && rows == Some(SlicePrefix(file.value.data, settings.rowLimit))
      ensures file.Success? ==> (outcome == Loaded <==> RowsFit(cols.value, rows.value))
      ensures outcome == Loaded ==> cellsContentLen == Some(ContentLens(cols.value, rows.value))
      ensures file.Success? && !RowsFit(cols.value, rows.value) ==>
                outcome == Raised(KeyError(|cols.value|)) && cellsContentLen == old(cellsContentLen)
    {
      if file.Failure? {
        return Logged(file.error);
      }
      var doc := file.value;
      tableName := doc.tableName;
      cols := Some(SlicePrefix(doc.header, settings.colLimit));
      rows := Some(SlicePrefix(doc.data, settings.rowLimit));
      var lens := CellsContentLen(cols.value, rows.value);
      if lens.Failure? {
        return Raised(lens.error);
      }
      cellsContentLen := Some(lens.value);
      return Loaded;
    }

    /**
     * Sizes the image from the content lengths and the row count, and makes
     * the background layer and an empty, transparent table layer of that size.
     * `backgroundOpens` says whether the configured background picture opens.
     */
    method CreateImage(backgroundOpens: bool)
      requires Valid() && rows.Some? && cellsContentLen.Some?
      modifies this`background, this`tableImage
      ensures var (w, h) := ImageSize(settings, cellsContentLen.value, letterWidth, |rows.value|);
              background == Some(BackgroundLayer(settings, w, h, backgroundOpens))
              && tableImage == Some(Layer(w, h, Transparent, []))
    {
      var lens := cellsContentLen.value;
      var rowsN := |rows.value| + 1;
      var tableWidth := ColumnsWidth(lens, letterWidth, |lens|);
      var tableHeight := settings.cellHeight * rowsN;
      var imageWidth := tableWidth + 2 * settings.tableMargin;
      var imageHeight := tableHeight + 2 * settings.tableMargin;
      background := Some(BackgroundLayer(settings, imageWidth, imageHeight, backgroundOpens));
      tableImage := Some(Layer(imageWidth, imageHeight, Transparent, []));
    }

    /** Draws a cell's outlined, filled rectangle, shifted by the table margin. */
    method DrawRectangle(x: int, y: int, cellWidth: int, cellHeight: int, fill: Color)
      requires tableImage.Some?
      modifies this`tableImage
      ensures tableImage == Some(old(tableImage.value).(ops := old(tableImage.value.ops)
                                   + [RectangleOp(settings, x, y, cellWidth, cellHeight, fill)]))
    {
      var x', y' := x + settings.tableMargin, y + settings.tableMargin;
      var op := Rectangle(Box(x', y', x' + cellWidth, y' + cellHeight), fill,
                          settings.tableBorderColor, settings.tableBorderThickness);
      tableImage := Some(tableImage.value.(ops := tableImage.value.ops + [op]));
    }

    /**
     * Draws one cell at `(x, y)`, before the margin is added: its rectangle,
     * then its text measured with the font and placed by the line's alignment.
     */
    method DrawCell(kind: Kind, v: Value, x: int, y: int, cellWidth: int)
      requires tableImage.Some?
      modifies this`tableImage
      ensures tableImage == Some(old(tableImage.value).(ops := old(tableImage.value.ops)
                                   + CellOps(settings, font, kind, v, x, y, cellWidth)))
    {
      DrawRectangle(x, y, cellWidth, settings.cellHeight, CellFill(settings, kind));
      var textOp := TextOp(settings, font, kind, v, x, y, cellWidth);
      tableImage := Some(tableImage.value.(ops := tableImage.value.ops + [textOp]));
      assert old(tableImage.value.ops) + [RectangleOp(settings, x, y, cellWidth, settings.cellHeight, CellFill(settings, kind))] + [textOp]
          == old(tableImage.value.ops) + CellOps(settings, font, kind, v, x, y, cellWidth);
    }

    /** Draws the header cells left to right, each as wide as its column. */
    method DrawHeaders()
      requires cols.Some? && cellsContentLen.Some? && tableImage.Some?
      requires Covers(cellsContentLen.value, |cols.value|)
      modifies this`tableImage
      ensures tableImage == Some(old(tableImage.value).(ops := old(tableImage.value.ops)
                                   + HeaderOps(settings, font, cols.value, cellsContentLen.value, letterWidth)))
    {
      var cells, lens := cols.value, cellsContentLen.value;
      ghost var start := tableImage.value;
      var x, y := 0, 0;
      var colId := 0;
      assert start.(ops := start.ops + LineOps(settings, font, Header, cells[..0], 0, lens, letterWidth)) == start;
      while colId < |cells|
        invariant 0 <= colId <= |cells|
        invariant x == ColumnsWidth(lens, letterWidth, colId)
        invariant tableImage == Some(start.(ops := start.ops + LineOps(settings, font, Header, cells[..colId], 0, lens, letterWidth)))
      {
        var cellWidth := lens[colId] * letterWidth;
        DrawCell(Header, cells[colId], x, y, cellWidth);
        LineOpsExtend(settings, font, Header, cells, 0, lens, letterWidth, colId, start.ops, x, y, cellWidth);
        x := x + cellWidth;
        colId := colId + 1;
      }
      assert cells[..colId] == cells;
    }

    /** Draws every data row's cells, row by row, each cell as wide as its column. */
    method DrawRows()
      requires rows.Some? && cellsContentLen.Some? && tableImage.Some?
      requires RowsCovered(cellsContentLen.value, rows.value)
      modifies this`tableImage
      ensures tableImage == Some(old(tableImage.value).(ops := old(tableImage.value.ops)
                                   + BodyOps(settings, font, rows.value, cellsContentLen.value, letterWidth)))
    {
      var lines, lens := rows.value, cellsContentLen.value;
      ghost var start := tableImage.value;
      var row := 0;
      assert start.(ops := start.ops + RowsOps(settings, font, lines, 0, lens, letterWidth)) == start;
      while row < |lines|
        invariant 0 <= row <= |lines|
        invariant tableImage == Some(start.(ops := start.ops + RowsOps(settings, font, lines, row, lens, letterWidth)))
      {
        DrawRowCells(row, lines[row], lens);
        RowsOpsExtend(settings, font, lines, row, lens, letterWidth, start.ops);
        row := row + 1;
      }
    }

    /** The inner loop of DrawRows: the cells of data row `row`, left to right. */
    method DrawRowCells(row: nat, rowData: seq<Value>, lens: map<int, nat>)
      requires tableImage.Some? && Covers(lens, |rowData|)
      modifies this`tableImage
      ensures tableImage == Some(old(tableImage.value).(ops := old(tableImage.value.ops)
                                   + LineOps(settings, font, Body, rowData, row + 1, lens, letterWidth)))
    {
      ghost var start := tableImage.value;
      var x := 0;
      var colId := 0;
      assert start.(ops := start.ops + LineOps(settings, font, Body, rowData[..0], row + 1, lens, letterWidth)) == start;
      while colId < |rowData|
        invariant 0 <= colId <= |rowData|
        invariant x == ColumnsWidth(lens, letterWidth, colId)
        invariant tableImage == Some(start.(ops := start.ops + LineOps(settings, font, Body, rowData[..colId], row + 1, lens, letterWidth)))
      {
        var cellWidth := lens[colId] * letterWidth;
        var y := (row + 1) * settings.cellHeight;
        DrawCell(Body, rowData[colId], x, y, cellWidth);
        LineOpsExtend(settings, font, Body, rowData, row + 1, lens, letterWidth, colId, start.ops, x, y, cellWidth);
        x := x + cellWidth;
        colId := colId + 1;
      }
      assert rowData[..colId] == rowData;
    }

    /** Composites the table layer over the background layer. */
    method CompositeImages()
      requires background.Some? && tableImage.Some?
      modifies this`image
      ensures image == Some(Composite(background.value, tableImage.value))
    {
      image := Some(Composite(background.value, tableImage.value));
    }

    /** Writes the image when there is one; otherwise only a warning is logged and nothing is written. */
    method SaveImage(outputPath: string) returns (saved: Option<SavedFile>)
      ensures saved.Some? <==> image.Some?
      ensures saved.Some? ==> saved.value.path == outputPath && saved.value.image == image.value
    {
      if image.Some? {
        saved := Some(SavedFile(outputPath, image.value));
      } else {
        saved := None;
      }
    }

    /** The whole pass: create the image, draw header and rows, composite, save. */
    method GenerateTableImage(outputPath: string, backgroundOpens: bool) returns (saved: Option<SavedFile>)
      requires Valid() && cols.Some? && rows.Some? && cellsContentLen.Some?
      requires Covers(cellsContentLen.value, |cols.value|) && RowsCovered(cellsContentLen.value, rows.value)
      modifies this`background, this`tableImage, this`image
      ensures image == Some(RenderedTable(settings, font, cols.value, rows.value, cellsContentLen.value,
                                          letterWidth, backgroundOpens))
      ensures background == Some(image.value.background) && tableImage == Some(image.value.overlay)
      ensures saved == Some(SavedFile(outputPath, image.value))
    {
      CreateImage(backgroundOpens);
      ghost var header := HeaderOps(settings, font, cols.value, cellsContentLen.value, letterWidth);
      ghost var body := BodyOps(settings, font, rows.value, cellsContentLen.value, letterWidth);
      DrawHeaders();
      assert tableImage.value.ops == [] + header == header;
      DrawRows();
      assert tableImage.value.ops == header + body;
      CompositeImages();
      saved := SaveImage(outputPath);
    }
  }
}
