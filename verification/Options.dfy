/** The optional value used throughout the models. */
module Options {
  datatype Option<T> = None | Some(value: T) {
    /** The value, or else `other`. */
    function Or(other: Option<T>): Option<T> {
      if Some? then this else other
    }
  }
}
