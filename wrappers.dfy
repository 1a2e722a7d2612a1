/** The optional value of an Odoo field that may be unset (`False`). */
module Wrappers {

  datatype Option<+T> = None | Some(value: T)
}
