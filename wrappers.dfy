/** Optional values: a nullable column, an absent request field, a lookup that found nothing. */
module Wrappers {

  datatype Option<+T> = None | Some(value: T)

}
