/** Table cells and the per-cell conversions pandas applies to them. */
module Cells {

  import opened Wrappers
  import opened Text
  import opened Calendar

  /** A table cell: missing (NaN/None), text, or a number. */
  datatype Cell = Null | Str(s: string) | Num(x: real)

  /** The exceptions the pipeline can raise. */
  datatype Error =
    | KeyError(column: string)   // a column the code indexes is absent
    | IndexError                 // `s.split(sep)[2]` on a string with fewer than three parts
    | AttributeError             // a method called on a value that lacks it

  /** What lies outside the model: Python's `str()` of a float and the general
      date parser `pd.to_datetime(s).date()` (None where it raises). */
  datatype Env = Env(render: real -> string, fallback: string -> Option<Date>)

  /** `str(x)` of a cell; a missing value prints as "nan". */
  function CellText(c: Cell, env: Env): string {
    match c
    case Null => "nan"
    case Str(s) => s
    case Num(x) => env.render(x)
  }

  /** `pd.to_numeric(x, errors="coerce")` on one cell. */
  function ToNumeric(c: Cell): (r: Cell)
    ensures r.Null? || r.Num?
    ensures c.Null? ==> r.Null?
    ensures c.Num? ==> r == c
    ensures c.Str? ==> (r.Num? <==> ParseDecimal(c.s).Some?)
    ensures c.Str? && ParseDecimal(c.s).Some? ==> r == Num(ParseDecimal(c.s).value)
  {
    match c
    case Null => Null
    case Num(x) => c
    case Str(s) => if ParseDecimal(s).Some? then Num(ParseDecimal(s).value) else Null
  }

  /** `.fillna(0)` on one cell. */
  function FillZero(c: Cell): (r: Cell)
    ensures !r.Null?
    ensures !c.Null? ==> r == c
    ensures c.Null? ==> r == Num(0.0)
  {
    if c.Null? then Num(0.0) else c
  }

  /** The number a summed cell contributes: pandas' `sum` skips missing values. */
  function NumOr0(c: Cell): real {
    if c.Num? then c.x else 0.0
  }
}
