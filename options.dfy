/** An optional value: a field the store has not assigned yet, a lookup that found nothing. */
module Options {
  datatype Option<T> = None | Some(value: T)
}
