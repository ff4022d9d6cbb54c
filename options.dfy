/** Java's nullable references, for the values the agent may see as `null`. */
module Options {
  datatype Option<+T> = None | Some(value: T)
}
