/**
 * The rendering settings the table generator reads. Font path and size,
 * the row and column filters are not read by the layout and are not here.
 */
module TableSettings {
  import opened Wrappers

  /** An RGBA colour. */
  datatype Color = Color(r: int, g: int, b: int, a: int)

  /** A padding box, in the order (left, top, right, bottom). */
  datatype Padding = Padding(left: int, top: int, right: int, bottom: int)

  datatype Settings = Settings(
    headerColor: Color,
    headerCellPadding: Padding,
    headerCellTextAlign: string,
    cellWidth: int,
    cellHeight: int,
    cellColor: Color,
    cellPadding: Padding,
    cellTextAlign: string,
    backgroundImage: Option<string>,
    backgroundColor: Color,
    tableMargin: int,
    tableBorderColor: Color,
    tableBorderThickness: int,
    colLimit: int,
    rowLimit: int)

  const White := Color(255, 255, 255, 255)

  /** The default value of every setting. */
  const Defaults := Settings(
    headerColor := White,
    headerCellPadding := Padding(10, 10, 10, 10),
    headerCellTextAlign := "center",
    cellWidth := 200,
    cellHeight := 50,
    cellColor := White,
    cellPadding := Padding(10, 0, 10, 0),
    cellTextAlign := "left",
    backgroundImage := Some("example/img/bg.jpg"),
    backgroundColor := White,
    tableMargin := 40,
    tableBorderColor := Color(0, 0, 0, 255),
    tableBorderThickness := 2,
    colLimit := 100,
    rowLimit := 20)
}
