/** The optional value used throughout the model for JavaScript's "maybe absent" inputs. */
module Options {

  /** `None` stands for an absent (or falsy, where the source tests truthiness) value. */
  datatype Option<+T> = None | Some(value: T)
}
