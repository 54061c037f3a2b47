/** The errors a check can raise and the messages they carry. The monitor
    swallows every error except one whose message is the no-connection text. */
module Errors {
  import opened Text

  /** The value background.js stores in `currentIP` while offline, and the
      message its catch block compares an error against. */
  const NO_CONNECTION: string := "No internet connection"

  datatype Error =
    | HttpStatus(status: nat)       // thrown by the retry loop for a non-2xx response
    | HostError(message: string)    // raised by the host: a failed fetch or an unparsable body
    | NoIpAddress                   // body has a falsy `ip` field
    | InvalidIpFormat               // trimmed `ip` fails the dotted-quad pattern
    | TrimNotAFunction              // `ip` is truthy but not a string
    | ReadIpOfNull                  // body parsed to JSON null
    | ReadJsonOfUndefined           // retry loop made no attempt and returned undefined

  /** `error.message`; the engine's wording for the three TypeErrors is V8's. */
  function Message(e: Error): string {
    match e
    case HttpStatus(status) => "HTTP error! status: " + NatToDecimal(status)
    case HostError(message) => message
    case NoIpAddress => "No IP address in response"
    case InvalidIpFormat => "Invalid IP format received"
    case TrimNotAFunction => "data.ip.trim is not a function"
    case ReadIpOfNull => "Cannot read properties of null (reading 'ip')"
    case ReadJsonOfUndefined => "Cannot read properties of undefined (reading 'json')"
  }

  /** The catch branch that re-enters the offline state fires only for a host
      error that happens to carry the no-connection text: no error the
      extension or the engine raises itself has that message. */
  lemma OnlyHostErrorsSignalNoConnection(e: Error)
    ensures Message(e) == NO_CONNECTION <==> e == HostError(NO_CONNECTION)
  {
    if e.HttpStatus? {
      assert Message(e)[0] == 'H';
    }
  }

  datatype Result<T> = Ok(value: T) | Err(error: Error)
}
