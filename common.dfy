/** Small shared datatypes: optional values and the outcome of a server call. */
module Common {

  datatype Option<+T> = None | Some(value: T)

  /** Outcome of a request to the server: the response body, or the `message`
      field of an error response when there is one. */
  datatype Result<+T> = Ok(value: T) | Err(serverMessage: Option<string>)

  /** `error.response?.data?.message || fallback`: the server's message when it
      is present and non-empty, the fallback otherwise. */
  function MessageOr(serverMessage: Option<string>, fallback: string): (m: string)
    ensures serverMessage.Some? && serverMessage.value != "" ==> m == serverMessage.value
    ensures (serverMessage.None? || serverMessage.value == "") ==> m == fallback
  {
    match serverMessage
    case Some(s) => if s != "" then s else fallback
    case None => fallback
  }
}
