/** Values shared by the three pages: optional values, files picked by the
    browser, and the truthiness test the pages apply to optional strings. */
module Common {

  /** A value that may be absent (`null` or `undefined` in the pages). */
  datatype Option<T> = None | Some(value: T)

  /** A JavaScript string used in a boolean context (`if (s)`, `!s`): absent
      values and the empty string are falsy, every other string is truthy. */
  predicate Truthy(s: Option<string>)
  {
    s.Some? && s.value != ""
  }

  /** A `File` chosen from the gallery, captured from the camera or posted to
      the backend. Its bytes are not modelled. */
  datatype ImageFile = ImageFile(name: string, size: nat, mimeType: string)
}
