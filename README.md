# tbl2pic table layout, in Dafny

This project models the layout core of `TableImageGenerator` in
`tbl2pic/generator.py`. The generator turns a JSON table (a header row plus
data rows) into a picture. It loads the document, keeping at most
`col_limit` header entries and `row_limit` rows. It measures the longest
`str()` of every column, header included, and makes each column that many
letter widths wide. It sizes the picture from those widths, the cell height
and the table margin. Then it draws each header cell and each data cell as
an outlined rectangle with its text placed by the alignment setting,
composites the table layer over the background and saves the result.

Modules:

- `Wrappers`: `Option` and `Result`.
- `Values`: a cell value (string, integer, boolean or null), Python's
  `str()` on it, and the ASCII part of `str.upper()`.
- `TableSettings`: the settings the layout reads, with their defaults.
- `ContentLength`: `_get_cells_content_len`. It is an imperative method
  with an outer loop over the rows; the inner loop over one row's cells is
  the separate method `RaiseRow`. The dictionary is an immutable `map` held
  in a local variable, and each step replaces it with an updated copy. The
  method is proved against a column-maximum specification, and a cell past
  the last header column becomes a `KeyError` result.
- `Layout`: pure geometry. It covers column widths, the image size, cell
  rectangles, the text origin for each alignment, and the list of drawing
  calls for a line of cells.
- `Generator`: the `TableImageGenerator` class. Its fields are set stage by
  stage, as in the source. Each stage method states the new state, and
  `GenerateTableImage` states the whole rendered picture.

Pillow appears only through its results. A font is a function from a text
to its bounding box. Drawing on the table layer appends a `DrawOp`
(a rectangle or a text label) to the layer's list of calls. The picture is
the background layer with the table layer composited over it.

The model follows the code as written, including where the settings
suggest something else:

- Columns are always content-sized. The `cell_width` setting
  (tbl2pic/settings.py:9) is stored but never read.
- There is no min/max clamping and no per-column setting.
- An empty header or empty data does not cut the pass short.
- Header cells use `cell_padding`. The `header_cell_padding` setting
  (tbl2pic/settings.py:6) is stored but never read.
- Left-aligned text starts at `x + margin + 2 * padding_left`: the code
  adds `padding_left` once when it sets the start point
  (tbl2pic/generator.py:140) and again in the `left` branch
  (tbl2pic/generator.py:162).

## Model

| member | source | states |
|---|---|---|
| ContentLength.CellsContentLen | tbl2pic/generator.py:247-256 | The nested loop over the data rows and then the header succeeds exactly when no row has more cells than the header. It then returns the column-maximum dictionary `ContentLens`; otherwise it fails with `KeyError(len(cols))` |
| ContentLength.RaiseRow | tbl2pic/generator.py:252-255 | One row's pass raises each column's length to that row's cell length when longer, and leaves the other columns alone. It fails with `KeyError(n)` exactly when the row has more than `n` cells |
| ContentLength.ContentLens | tbl2pic/generator.py:250 | The content-length dictionary has exactly the keys `0 .. len(cols) - 1`, one per kept header column |
| ContentLength.ColumnKeysMembers | tbl2pic/generator.py:250 | The initial dictionary's keys are exactly the integers in `range(len(cols))` |
| ContentLength.ColumnKeysCard | tbl2pic/generator.py:250 | There are `len(cols)` initial keys |
| ContentLength.ColumnMaxBounds | tbl2pic/generator.py:251-255 | Every cell's `len(str())` is at most its column's content length |
| ContentLength.ColumnMaxAttained | tbl2pic/generator.py:251-255 | A column's content length is 0 or the length of one of that column's cells |
| ContentLength.ContentLensIsColumnMaximum | tbl2pic/generator.py:248-256 | Each content length is at least the header cell's length and every data row's cell length, and equals the header's or some row's cell length |
| Values.IntegerRoundTrip | tbl2pic/generator.py:253 | The decimal `str()` of an integer cell reads back as the same integer |
| Values.NatDigitsAreDigits | tbl2pic/generator.py:253 | The `str()` of a natural number is made of digits and has no leading zero |
| Values.UpperCases | tbl2pic/generator.py:144 | Upper-casing a header label keeps its length, leaves no lower-case ASCII letter, maps each lower-case letter to its capital, and keeps every other character |
| Values.UpperIdempotent | tbl2pic/generator.py:171 | Upper-casing an already upper-cased label changes nothing |
| Generator.SlicePrefix | tbl2pic/generator.py:48-49 | `s[:stop]` is a prefix of `s`, in the original order. Its length is `min(stop, len(s))` for a non-negative `stop`, and `max(len(s) + stop, 0)` for a negative one |
| Layout.TextPlacement | tbl2pic/generator.py:140-168 | Centred text has equal room left and right inside the padding. Centred and left-aligned text have equal room above and below inside the padding. Left-aligned text starts twice the left padding from the cell's edge. Any other alignment keeps `(x + margin + pl, y + margin + pt)` |
| Layout.CellsTile | tbl2pic/generator.py:107-110 | A cell's left edge is the previous column's right edge, or the margin for column 0. Its top edge is the line above's bottom edge, or the margin for the header. The last column's right edge and the last row's bottom edge lie one margin inside the image size |
| Layout.ColumnsWidthMonotone | tbl2pic/generator.py:62-65 | With a non-negative letter width, the summed width of the first `j` columns is non-negative and no more than that of the first `k >= j` columns |
| Layout.CellInsideImage | tbl2pic/generator.py:60-69 | With a non-negative letter width, cell height and margin, every header and data cell lies inside the image, within the margin |
| Layout.LineOpsAt | tbl2pic/generator.py:121-173 | A line of `n` cells makes `2 * n` drawing calls. Column `c` owns calls `2c` and `2c + 1`, made at the x the loop has accumulated for it |
| Layout.ColumnOpsShape | tbl2pic/generator.py:130-171 | A cell's first call is its rectangle at `CellBox`, in its line's fill colour with the border colour and thickness. Its second call is its text: the upper-cased label in the header, the plain `str()` in a data row |
| Layout.LineIgnoresUnusedSettings | tbl2pic/generator.py:124-130 | No drawing call of a line depends on `cell_width` or on `header_cell_padding` |
| Layout.LineRectanglesInside | tbl2pic/generator.py:121-173 | Every rectangle drawn for a line lies inside the image, within the margin |
| Layout.RowsRectanglesInside | tbl2pic/generator.py:175-228 | Every rectangle drawn for the data rows lies inside the image, within the margin |
| Generator.BackgroundLayer | tbl2pic/generator.py:70-93 | The background has the image's size. It is the configured picture exactly when one is set, non-empty and opens; otherwise it is the solid background colour |
| Generator.RenderedRectanglesInside | tbl2pic/generator.py:240-245 | In the picture a full pass produces, both layers have the same size and every rectangle lies inside it, within the margin |
| Generator.DefaultsDrawInside | tbl2pic/settings.py:4-22 | Under the default settings (cell height 50, margin 40), every rectangle of any generated table lies inside the picture, within the 40-pixel margin |
| Generator.TableImageGenerator.constructor | tbl2pic/generator.py:12-39 | A fresh generator has no document, no lengths and no layers, and keeps the width and height of the bounding box of "A" |
| Generator.TableImageGenerator.ReadFromJson | tbl2pic/generator.py:41-57 | A read failure is logged and changes nothing. Otherwise the name, the truncated header and the truncated rows are stored. When every row fits the header, the lengths are computed and stored and loading succeeds. When a row is wider than the kept header, `KeyError(len(cols))` escapes and the old lengths stay |
| Generator.TableImageGenerator.CreateImage | tbl2pic/generator.py:59-97 | The background and an empty transparent table layer both get the size `ImageSize`: the summed column widths plus two margins, by `cell_height * (len(rows) + 1)` plus two margins |
| Generator.TableImageGenerator.DrawRectangle | tbl2pic/generator.py:99-114 | Appends one rectangle at `[x + margin, y + margin, x + margin + w, y + margin + h]` with the given fill and the configured border |
| Generator.TableImageGenerator.DrawCell | tbl2pic/generator.py:130-173 | Appends one cell's rectangle and then its aligned text |
| Generator.TableImageGenerator.DrawHeaders | tbl2pic/generator.py:121-173 | Appends exactly the header's calls `HeaderOps`, left to right, as the loop accumulates `x` |
| Generator.TableImageGenerator.DrawRows | tbl2pic/generator.py:175-228 | Appends exactly the data rows' calls `BodyOps`, top to bottom |
| Generator.TableImageGenerator.DrawRowCells | tbl2pic/generator.py:177-228 | Appends exactly one data row's calls, left to right, restarting `x` at 0 |
| Generator.TableImageGenerator.CompositeImages | tbl2pic/generator.py:230-231 | The image is the table layer composited over the background |
| Generator.TableImageGenerator.SaveImage | tbl2pic/generator.py:233-238 | A file is written exactly when there is an image, at the given path and with that image |
| Generator.TableImageGenerator.GenerateTableImage | tbl2pic/generator.py:240-245 | One full pass leaves the image `RenderedTable`: the background, plus a table layer holding the header's calls followed by the data rows' calls. The `background` and `table_image` fields stay set to those two layers, and the image is saved at the given path |

## Left out

- Pixels are not modelled. Rectangles, glyph rasterisation, alpha compositing and PNG encoding are Pillow's. The model keeps only the list of drawing calls and the layers' sizes.
- Sub-pixel rounding is left out: Pillow rounds the text origin, but the model keeps the `/ 2` offsets as exact real numbers.
- Font loading and its fallback to Pillow's default font (tbl2pic/generator.py:28-35) are I/O. The constructor takes the loaded font as a value that measures texts.
- A text's bounding-box size is taken to be independent of where it is measured. The source measures at the text's start point; the model measures once per text.
- Opening, converting and resizing the background picture (tbl2pic/generator.py:71-88) is I/O. Whether it opens is the `backgroundOpens` parameter.
- Reading and decoding the JSON file (tbl2pic/generator.py:42-45) is I/O. `ReadFromJson` takes its result: the document, or the error that is logged.
- A document without a `header` or `data` key makes the source fail on `None[:n]` with `TypeError`. The model's document always has both.
- The `settings` block of the document (`data_settings`), the `data` constructor argument, the column and row filters, the font path and size, and all logging are stored or emitted but never read by the layout. They are not modelled.
- Cell values are strings, integers, booleans and null. Floats, nested lists and objects in cells are not modelled, and `str()` is exact only for those four kinds.
- Values.Upper: maps only ASCII letters, while Python's `str.upper()` also maps non-ASCII letters.
- Generator.TableImageGenerator.CreateImage: its `requires` stands for the `TypeError` the source raises when the image is created before a document was loaded. This applies likewise to `DrawHeaders`, `DrawRows`, `CompositeImages` and `GenerateTableImage`: the source fails with `TypeError`, `KeyError` or `AttributeError` when a stage runs before the stages it reads.
- Generator.TableImageGenerator.DrawHeaders: its `requires` that every header column has a length always holds after a successful load. Data rows are covered in the same way for `DrawRows`.
