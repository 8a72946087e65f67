/**
 * One cell of a report as pandas holds it after reading a CSV or Excel file:
 * text, a number, the missing marker NaN, or some other non-missing object.
 */
module Cells {
  import opened Decimal

  datatype Cell =
    | Str(s: string)       // a Python `str`
    | Num(v: real)         // a Python `int` or finite `float`
    | Missing              // pandas' NaN (a float that is "not a number")
    | Obj(shown: string)   // any other object; `shown` is what `str()` gives for it

  /**
   * `str(v)` for a number: a sign exactly when the number is negative, then
   * the numeral of the integer part, which reads back as that part, followed
   * by a '.' exactly when there is a fraction. Python's float formatting of
   * the fraction digits is not modelled beyond this.
   */
  function RenderNumber(v: real): (r: string)
    ensures |r| > 0
    ensures r[0] == '-' <==> v < 0.0
    ensures 0.0 <= v ==> (r[|r| - 1] == '.' <==> v.Floor as real != v)
    ensures 0.0 <= v && v.Floor as real == v ==> AllDigits(r) && DigitsValue(r) == v.Floor
  {
    var n := if v < 0.0 then -v else v;
    var whole := n.Floor;
    var digits := NatToString(whole);
    NatToStringValue(whole);
    var sign := if v < 0.0 then "-" else "";
    var tail := if whole as real == n then "" else ".";
    var r := sign + digits + tail;
    assert IsDigit(digits[0]) && IsDigit(digits[|digits| - 1]);
    assert r[0] == if v < 0.0 then '-' else digits[0];
    assert r[|r| - 1] == if tail == "" then digits[|digits| - 1] else '.';
    assert sign == "" && tail == "" ==> r == digits;
    r
  }

  /**
   * Python's `str(cell)`, as used for `astype(str)` and in the brand scan: text
   * is itself, NaN is "nan", a whole non-negative number is its numeral.
   */
  function Render(c: Cell): (r: string)
    ensures c.Str? ==> r == c.s
    ensures c.Missing? ==> r == "nan"
    ensures c.Num? ==> |r| > 0 && (r[0] == '-' <==> c.v < 0.0)
    ensures c.Num? && 0.0 <= c.v && c.v.Floor as real == c.v ==> AllDigits(r) && DigitsValue(r) == c.v.Floor
  {
    match c
    case Str(s) => s
    case Num(v) => RenderNumber(v)
    case Missing => "nan"
    case Obj(shown) => shown
  }

  /** pandas' `fillna(0)` applied to one cell. */
  function FillZero(c: Cell): (r: Cell)
    ensures !r.Missing?
    ensures c.Missing? ==> r == Num(0.0)
    ensures !c.Missing? ==> r == c
  {
    if c.Missing? then Num(0.0) else c
  }

  /** Python's `cell == 0`: true only of the number zero (a string never equals 0). */
  predicate IsZero(c: Cell) {
    c == Num(0.0)
  }

  /**
   * What a cell adds to a pandas `sum()`: its number; NaN is skipped, that is,
   * adds nothing. Text and other objects (which the numeric columns do not hold
   * after cleaning) are counted as nothing too.
   */
  function Value(c: Cell): real {
    if c.Num? then c.v else 0.0
  }
}
