/** Small value types shared by the model's modules. */
module Common {

  /** A value that may be absent; stands for a Java reference that may be null. */
  datatype Option<T> = None | Some(value: T)
}
