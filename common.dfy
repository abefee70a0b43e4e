/** Small value types shared by the engine modules. */
module Common {
  /** An optional value: the model of a C out-parameter that is written only on success. */
  datatype Option<T> = None | Some(value: T)
}
