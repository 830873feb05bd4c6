/** Values shared by the office controller and the ML-lab people line. */
module Common {

  /** A slot that is either empty (JavaScript's `null` or `undefined`) or holds one value. */
  datatype Option<+T> = None | Some(value: T)
}
