/** Small vocabulary shared by every module. */
module Prelude {

  datatype Option<+T> = None | Some(value: T)

  function Max(a: int, b: int): int {
    if a < b then b else a
  }

  function Min(a: int, b: int): int {
    if a < b then a else b
  }

  function MaxReal(a: real, b: real): real {
    if a < b then b else a
  }

  function MinReal(a: real, b: real): real {
    if a < b then a else b
  }

  function AbsReal(x: real): real {
    if x < 0.0 then -x else x
  }

  /** A label's value; absent and empty labels read alike. */
  function Label(labels: map<string, string>, key: string): string {
    if key in labels then labels[key] else ""
  }
}
