/** An optional value: the model of a lookup that may come back `undefined`. */
module Maybe {
  datatype Option<+T> = None | Some(value: T)
}
