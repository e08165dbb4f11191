/** The optional value used across the model (an absent prop, a timer that is not scheduled). */
module Options {
  datatype Option<+T> = None | Some(value: T)
}
