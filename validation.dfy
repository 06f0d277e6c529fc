/** The request-validation rules the handlers rely on. */
module Validation {
  /** A character PHP's `trim` removes: space, tab, newline, carriage return, NUL or vertical tab. */
  predicate TrimmedChar(c: char)
  {
    c == ' ' || c == '\t' || c == '\n' || c == '\r' || c as int == 0 || c as int == 11
  }

  /**
   * Laravel's `required` rule refuses a string that is empty once trimmed:
   * the empty string and one made only of trimmed characters.
   */
  predicate Blank(s: string)
  {
    forall i :: 0 <= i < |s| ==> TrimmedChar(s[i])
  }
}
