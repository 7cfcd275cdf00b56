/**
 * What the front-end stores see of a network call: the `{ data, error }`
 * pair openapi-fetch resolves to, or an exception thrown instead. The
 * stores turn each failure into the text shown in their `error` field.
 */
module StoreCommon {

  import opened Wrappers

  /** JavaScript truthiness of a nullable string: present and not empty. */
  predicate NonEmpty(s: Option<string>) {
    s.Some? && s.value != ""
  }

  /**
   * `Data`: the call resolved with data and no error. `ErrorBody`: it
   * resolved with an error whose `message` may be absent. `NoData`: neither.
   * `Thrown`: the call threw; an `Error` carries its message, anything else
   * carries none.
   */
  datatype ApiOutcome<T> = Data(value: T) | ErrorBody(message: Option<string>) | NoData | Thrown(thrown: Option<string>)

  /** `message || fallback`: an absent or empty message gives the fallback. */
  function MessageOr(message: Option<string>, fallback: string): (text: string)
    ensures message.Some? && message.value != "" ==> text == message.value
    ensures message.None? || message.value == "" ==> text == fallback
  {
    if message.Some? && message.value != "" then message.value else fallback
  }

  /** `e instanceof Error ? e.message : 'Unknown error'`: an empty message is kept as it is. */
  function ThrownText(thrown: Option<string>): (text: string)
    ensures thrown.Some? ==> text == thrown.value
    ensures thrown.None? ==> text == "Unknown error"
  {
    if thrown.Some? then thrown.value else "Unknown error"
  }

  /** The text a store puts in its `error` field for an outcome, if any. */
  function FailureText<T>(outcome: ApiOutcome<T>, fallback: string): (text: Option<string>)
    ensures text.Some? <==> outcome.ErrorBody? || outcome.Thrown?
    ensures outcome.ErrorBody? && fallback != "" ==> text.value != ""
  {
    match outcome
    case ErrorBody(message) => Some(MessageOr(message, fallback))
    case Thrown(thrown) => Some(ThrownText(thrown))
    case _ => None
  }
}
