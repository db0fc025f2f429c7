/** Python's `None` / value, as used for the bot's optional globals. */
module Options {
  datatype Option<+T> = None | Some(value: T)
}
