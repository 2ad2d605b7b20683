/** The parts of a table widget the core fills in: rows of text cells with a style. */
module Widgets {
  import opened Common

  datatype Rgb = Rgb(r: nat, g: nat, b: nat)

  /** A cell or row style: an optional background colour and the bold modifier. */
  datatype Style = Style(bg: Option<Rgb>, bold: bool)

  /** `Style::default()`. */
  const Plain: Style := Style(None, false)

  datatype Row = Row(cells: seq<string>, style: Style)

  /** A table as handed to the renderer: its title, header cells and rows. */
  datatype Table = Table(title: string, header: seq<string>, rows: seq<Row>)
}
