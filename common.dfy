/** Small value types shared by the modules of the model. */
module Common {

  /** A value that may be missing: JavaScript's `null`/`undefined` next to a real value. */
  datatype Option<T> = None | Some(value: T)

  /** JavaScript truthiness of an optional string id: present and not the empty string. */
  predicate Present(o: Option<string>)
  {
    o.Some? && o.value != ""
  }

  /** The tag of a text brick. */
  const TextTag := "text"
}
