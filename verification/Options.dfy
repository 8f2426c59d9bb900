/** The optional value used throughout the model, in particular for buffer cells:
    `None` stands for uninitialised memory. */
module Options {
  datatype Option<+T> = None | Some(value: T)
}
