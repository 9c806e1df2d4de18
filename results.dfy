/** The tri-state wrapper that repositories emit and view models collect, and
    the shape of an outcome of a backend call that may throw. */
module Results {
  import opened Wrappers

  /** A one-shot message: `GetContentIfNotHandled` yields it only while it has
      not been consumed; `PeekContent` always yields it. */
  datatype Event = Event(content: string, handled: bool) {
    function GetContentIfNotHandled(): Option<string> {
      if handled then None else Some(content)
    }

    function PeekContent(): string {
      content
    }
  }

  /** A fresh, not yet consumed event, as every `Event(...)` constructor call
      in the repository creates. */
  function NewEvent(message: string): (e: Event)
    ensures e.GetContentIfNotHandled() == Some(message) && e.PeekContent() == message
  {
    Event(message, false)
  }

  datatype DataResult<T> = Success(data: T) | Error(error: Event) | Loading | Idle

  /** What a backend call that may throw ends with: a value, or an exception
      whose (nullable) message is kept. */
  datatype Backend<T> = Done(value: T) | Threw(message: Option<string>)

  /** Kotlin string interpolation of a nullable message: `null` prints as
      "null". */
  function MessageText(m: Option<string>): string {
    m.GetOr("null")
  }
}
