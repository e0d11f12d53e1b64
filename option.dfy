/** A value that may be missing: the model of a C# nullable reference or `T?`. */
module Options {

  datatype Option<+T> = None | Some(value: T) {

    /** The `??` operator: the value if present, `default` otherwise. */
    function GetOr(default: T): T
    {
      match this
      case Some(v) => v
      case None => default
    }
  }
}
