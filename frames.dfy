/**
 * pandas frames as the pipeline uses them: an ordered list of column names and
 * one record per row. A cell holds a number, text, or nothing (NaN or an
 * absent value).
 */
module Frames {
  import opened Wrappers
  import opened Text

  datatype Cell = Num(x: real) | Txt(s: string) | Blank

  type Record = map<string, Cell>

  datatype Frame = Frame(columns: seq<string>, rows: seq<Record>)

  /** `df[c]` for one row: a column the row does not hold reads as NaN. */
  function At(r: Record, c: string): Cell {
    if c in r then r[c] else Blank
  }

  /** `pd.to_numeric(x, errors="coerce")`: numbers stay, numeric text is read, anything else is NaN. */
  function ToNumeric(c: Cell): Option<real> {
    match c
    case Num(x) => Some(x)
    case Txt(s) => PyFloat(s)
    case Blank => None
  }
}
