/** The optional value: a nullable database column, an absent request key,
    or a lookup that found nothing. */
module Options {

  datatype Option<+T> = None | Some(value: T)
}
