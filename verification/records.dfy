/** Rows of table data as the server sends them and the table keeps them. */
module Records {

  /** One property of a row object: its key and the text its value prints as. */
  datatype Cell = Cell(key: string, text: string)

  /** A row object; `cells` lists its own properties in `Object.values` order. */
  datatype Row = Row(cells: seq<Cell>)
}
