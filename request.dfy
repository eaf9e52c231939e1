/** The request object that the callable `salvarDadosPessoais` receives as `data`. */
module Request {

  /** The value of one property of the request object. */
  datatype Value =
    | Str(text: string)   // a JavaScript string
    | Other(json: string) // any other JSON value (number, boolean, null, array, object),
                          // kept as its JSON text so that storing it is verbatim

  /**
   * The decoded `data` argument. `Absent` is `null` or `undefined`: reading a
   * property of it raises a TypeError. Any other value is read through its own
   * properties, so a number, a string or an array payload behaves as an
   * `Object` without the required properties.
   */
  datatype Data =
    | Absent
    | Object(fields: map<string, Value>)

  datatype Option<T> = None | Some(value: T)
}
