/**
 * Values that the pages receive from the browser and the network, and the two
 * JavaScript idioms the handlers use on them: truthiness of a nullable string
 * and `message || fallback`.
 */
module Replies {

  datatype Option<+T> = None | Some(value: T)

  /** The outcome of one awaited HTTP request, as a handler sees it.
      - Ok: the response was successful and its body was read.
      - Rejected: the response was not successful; `message` is the `message`
        field of its JSON body, "" when the field is absent or empty.
      - Thrown: the request or the reading of its body raised an exception
        whose message is `message`. */
  datatype Reply<+T> = Ok(payload: T) | Rejected(message: string) | Thrown(message: string)

  /** A call that either returns a value or raises an error with a message. */
  datatype Result<+T> = Returned(value: T) | Raised(message: string)

  /** JavaScript truthiness of a `string | null`: present and not empty. */
  predicate Truthy(s: Option<string>)
  {
    s.Some? && s.value != ""
  }

  /** JavaScript's `message || fallback` on two strings. */
  function Or(message: string, fallback: string): (r: string)
    ensures r == message || r == fallback
    ensures message != "" ==> r == message
    ensures fallback != "" ==> r != ""
  {
    if message != "" then message else fallback
  }
}
