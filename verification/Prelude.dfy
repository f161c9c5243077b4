/** What every part of the model uses: optional values (missing files, absent keys, failed calls),
    counting a condition, and the smaller and larger of two times. */
module Prelude {
  datatype Option<+T> = None | Some(value: T)

  function One(b: bool): nat {
    if b then 1 else 0
  }

  function Min(a: real, b: real): real {
    if a < b then a else b
  }

  function Max(a: real, b: real): real {
    if a < b then b else a
  }
}
