/** The optional value used across the model: `None` stands for JavaScript's
    `undefined`/`null` wherever the source tests for it. */
module Options {
  datatype Option<+T> = None | Some(value: T)
}
