/** The absent-or-present value used wherever the C++ code returns a null pointer. */
module Optional {

  datatype Option<+T> = None | Some(value: T)
}
