/** What a failed database call throws, and the message the forms show for it:
    an `Error` shows its own message, anything else a fixed one. */
module Thrown {
  datatype Failure = ErrorWithMessage(message: string) | NotAnError

  const UnknownError := "An error occurred"

  /** The message a form shows for what was thrown. */
  function ErrorText(f: Failure): string
  {
    match f
    case ErrorWithMessage(message) => message
    case NotAnError => UnknownError
  }
}
