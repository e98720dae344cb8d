/** Shared vocabulary: optional values, server replies, user notices and
    the JavaScript truthiness rules the components lean on. */
module Common {

  datatype Option<+T> = None | Some(value: T)

  /** The settled result of one request to the REST API. `Err` carries the
      message the server put in its error body; the empty string stands for a
      reply that carried no message (absent, null or empty: all falsy). */
  datatype Outcome<+T> = Ok(value: T) | Err(message: string)

  /** A toast shown to the user after a handler settles. */
  datatype Notice = Success(text: string) | Failure(text: string)

  /** The `mode` prop of the two form dialogs; it defaults to `Add`. */
  datatype FormMode = Add | Edit

  /** JavaScript `message || fallback` for a string operand. */
  function OrElse(message: string, fallback: string): (r: string)
    ensures r == message || r == fallback
    ensures message != "" ==> r == message
    ensures fallback != "" ==> r != ""
  {
    if message != "" then message else fallback
  }

  /** Truthiness of a `string | null | undefined` value. */
  predicate Truthy(s: Option<string>)
  {
    s.Some? && s.value != ""
  }
}
