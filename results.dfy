/** Outcomes of the asynchronous repository calls.
    Kotlin's `Result<T>` carries either a value or a `Throwable`, whose `message`
    is nullable; the model keeps only that message. */
module Results {

  datatype Option<+T> = None | Some(value: T) {
    /** Kotlin's elvis operator `x ?: default`. */
    function GetOr(default: T): T {
      match this
      case Some(v) => v
      case None => default
    }
  }

  datatype Result<+T> = Success(value: T) | Failure(message: Option<string>)

  /** What the backend SDK does with one request: complete it, or throw an
      exception carrying a (possibly absent) message. */
  datatype Fault = NoFault | Fails(message: Option<string>)

  /** A nullable message as a Kotlin string template renders it: the text, or "null". */
  function MessageText(message: Option<string>): (r: string)
    ensures message.Some? ==> r == message.value
    ensures message.None? ==> r == "null"
  {
    message.GetOr("null")
  }
}
