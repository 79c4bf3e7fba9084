/** An explicit "unset" marker for the parameter fields that the C code marks
    with a NaN sentinel: `None` plays the role of NaN, `Some(x)` of a finite x. */
module Optional {

  datatype Option<+T> = None | Some(value: T)
}
