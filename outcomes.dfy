/** Values that stand for the outside world: an optional value, the settled result of a network
    or database call, and what an async action hands back to its caller. */
module Outcomes {

  /** `T | null | undefined` */
  datatype Option<T> = None | Some(value: T)

  /** The settled result of an awaited call: the value it resolved with, or the message of the
      error it rejected with ("" when the error has no message). */
  datatype Outcome<T> = Success(value: T) | Failure(message: string)

  /** What an async action returns to its caller: a value, or the error it rethrows. */
  datatype Result<T> = Ok(value: T) | Thrown(message: string)

  /** `err.message || fallback`: an empty or missing message is replaced by the fallback text. */
  function ErrorText(message: string, fallback: string): (r: string)
    ensures message != "" ==> r == message
    ensures message == "" ==> r == fallback
    ensures fallback != "" ==> r != ""
  {
    if message != "" then message else fallback
  }

  /** JavaScript truthiness of an optional string: present and not empty. */
  predicate Truthy(s: Option<string>) {
    s.Some? && s.value != ""
  }
}
