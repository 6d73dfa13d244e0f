/** How a handler ends, and what Dispatcher.Handle makes of it (core/subscriber/dispatcher.go). */
module Outcomes {
  datatype Error = Error(id: nat) | PanicRecovered(value: nat)

  /** What a handler panics with: an error, or any other value. */
  datatype PanicValue = AnError(e: Error) | Anything(value: nat)

  datatype Outcome = Ok | Err(e: Error) | Panic(v: PanicValue)

  /** How an outcome is acknowledged, and whether a panic goes on. */
  datatype Handled = Handled(acked: bool, nacked: bool, repanics: bool)

  function HandleOutcome(o: Outcome): Handled {
    match o
    case Ok => Handled(true, false, false)
    case Err(_) => Handled(false, true, false)
    case Panic(_) => Handled(false, true, true)
  }
}
