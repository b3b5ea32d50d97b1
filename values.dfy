/**
 * The JavaScript values that sit in data arrays and axis labels, as the
 * library's coercions (`Number`, `parseFloat`, `isNaN`, truthiness) see them.
 */
module Values {
  import opened Wrappers

  /**
   * Num(v): a value that Number() reads as v: a number, or a string such as
   *   "12", "2.5" or "1e3". parseFloat() agrees except on null, false and "",
   *   which are 0 under Number() and falsy, so they are Num(0), but NaN under
   *   parseFloat().
   * Text(s): a non-empty string that Number() reads as NaN ("abc", "12px").
   * Missing: undefined or NaN.
   */
  datatype Entry = Num(v: real) | Text(s: string) | Missing

  /**
   * Number(e); None stands for NaN.
   * Array.sum also calls parseFloat(e), which differs from Number(e) on null,
   * false and "" (NaN rather than 0) and on a string with a numeric prefix
   * ("12px": 12 rather than NaN). Its guard `!e || isNaN(e)` discards the
   * parsed value in exactly those cases, so wherever the parsed value is
   * added, it is Number(e) and this function stands for it.
   */
  function ToNumber(e: Entry): Option<real>
  {
    match e
    case Num(v) => Some(v)
    case Text(_) => None
    case Missing => None
  }

  /** isNaN(e): the value does not coerce to a number. */
  predicate IsNaN(e: Entry)
  {
    ToNumber(e).None?
  }

  /**
   * !e for 0, null, false, "", undefined and NaN. The string "0" is truthy but
   * is Num(0) here too; the model asks only in Array.sum, where a zero adds
   * nothing whether or not it is skipped.
   */
  predicate Falsy(e: Entry)
  {
    e == Missing || e == Num(0.0)
  }

  /** The result of Math.max/Math.min and of a lookup that may be undefined. */
  datatype JsNumber = Undefined | NaN | Number(value: real)
}
