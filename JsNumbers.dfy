/** JavaScript's `Number(text)` and `String(x)`, kept abstract: the panels receive them as
    parameters instead of modelling IEEE parsing and printing. */
module JsNumbers {
  import opened Wrappers

  /** `Number(text)` on a form field; `None` stands for NaN. */
  type Parse = string -> Option<real>

  /** `String(x)` on a stored number. */
  type Show = real -> string

  /** The two facts about `Number` and `String` the panels rely on: the empty field reads
      as 0, and a number printed into a field reads back as itself. */
  ghost predicate NumberLaws(parse: Parse, show: Show) {
    parse("") == Some(0.0) && forall x: real :: parse(show(x)) == Some(x)
  }
}
