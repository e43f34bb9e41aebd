/** The optional value used for URL parameters, props and parse results that may be
    `undefined` or `null` in the storefront. */
module Wrappers {

  datatype Option<+T> = None | Some(value: T)
}
