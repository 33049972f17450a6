/** The optional value used for a storage slot that may be empty and for
    the gap-centre range that only some difficulty tiers define. */
module Wrappers {

  datatype Option<+T> = None | Some(value: T)
}
