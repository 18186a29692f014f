/** Vocabulary shared by every part of the model: optional values, Python's
    truthiness and f-string rendering of optional strings, and the
    (message, HTTP status) pair every entry point returns. */
module Basics {

  /** A value that may be absent: Python's `None`. */
  datatype Option<+T> = None | Some(value: T) {

    /** The value, or `default` when absent (`d.get(k, default)`). */
    function GetOr(default: T): T {
      match this
      case Some(v) => v
      case None => default
    }
  }

  /** Python's truthiness of an optional string: `None` and `""` are falsy. */
  predicate Truthy(s: Option<string>) {
    s.Some? && s.value != ""
  }

  /** How an f-string renders an optional string: `None` prints as "None". */
  function Render(s: Option<string>): string {
    match s
    case Some(v) => v
    case None => "None"
  }

  /** What an HTTP entry point answers: a body text and a status code. */
  datatype Reply = Reply(message: string, code: int)

  /** No element occurs twice. */
  predicate NoDuplicates<T(==)>(s: seq<T>) {
    forall i, j :: 0 <= i < j < |s| ==> s[i] != s[j]
  }
}
