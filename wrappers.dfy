/** Small result types shared by the command models. */
module Wrappers {

  datatype Option<+T> = None | Some(value: T)

  /** The result of an operating-system call the model does not perform itself:
      either the value it produced or the text of the error it reported. */
  datatype Attempt<+T> = Ok(value: T) | Failed(cause: string)
}
