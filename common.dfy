/** Values shared by every part of the agent model. */
module Common {

  /** A value or its absence; `None` stands for a C null pointer where the agent receives one. */
  datatype Option<T> = None | Some(value: T)

  /**
   * How a callback of the agent ends. `Fatal` is `fatal_error(message)` (the process aborts),
   * `Exit` is `exit(code)`, and `NullDereference` is an access through a null pointer
   * (undefined behaviour in C, a crash in practice).
   */
  datatype Outcome = Ok | Fatal(message: string) | Exit(code: int) | NullDereference

  /** An `unsigned char` of a class file image. */
  newtype byte = x: int | 0 <= x < 256
}
