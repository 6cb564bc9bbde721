/** Values shared by every part of the model.

    Go's `(pass string, err error)` pair is represented by `Result<string>`:
    every error return in getpass.go returns the empty secret, so `Err(msg)`
    stands for `("", errors.New(msg))` and `Ok(v)` for `(v, nil)`. */
module Base {

  datatype Option<+T> = None | Some(value: T)

  datatype Result<+T> = Ok(value: T) | Err(msg: string)

  /** The `pass` half of Go's result pair. */
  function Secret(r: Result<string>): (pass: string)
    ensures r.Err? ==> pass == ""
    ensures r.Ok? ==> pass == r.value
  {
    match r
    case Ok(v) => v
    case Err(_) => ""
  }

  /** `a` occurs somewhere inside `b`. */
  ghost predicate IsInfix<T>(a: seq<T>, b: seq<T>)
  {
    exists i, j :: 0 <= i <= j <= |b| && b[i..j] == a
  }
}
