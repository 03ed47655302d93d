/** Small value types shared by the whole model. */
module Values {

  /** Python's `None` or a value. */
  datatype Option<+T> = None | Some(value: T)

  /** A value, or the error an operation raised or returned instead. */
  datatype Result<+T, +E> = Ok(value: T) | Err(error: E)

  /** The JSON values that an extracted invoice record may hold; amounts are reals. */
  datatype Json =
    | Null
    | Bool(b: bool)
    | Num(n: real)
    | Str(s: string)
    | Arr(items: seq<Json>)
    | Obj(fields: map<string, Json>)
}
