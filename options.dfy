/**
 * The optional value for the application's nullable objects: the signed-in
 * user, a position, a contact list, a storage lookup. A missing text field is
 * the empty string instead.
 */
module Options {

  datatype Option<+T> = None | Some(value: T) {

    /** `this || other` on nullable objects: the first one that is present. */
    function OrElse(other: Option<T>): Option<T> {
      if Some? then this else other
    }
  }
}
