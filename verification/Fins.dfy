/** Which `FIN_*` frames were sent and received, and what a peer can do wrong within a stream. */
module Fins {

  datatype FinState = FinState(sent: bool, received: bool) {
    predicate IsDead() {
      sent && received
    }

    function And(other: FinState): FinState {
      FinState(sent && other.sent, received && other.received)
    }
  }

  const NO_FINS := FinState(false, false)

  datatype Violation =
    | WrongIdPool
    | UnknownStream
    | OccupiedId
    | TooManyStreams
    | WindowAfterFinRead
    | TooMuchCredit
    | DuplicateFinRead
    | DataAfterFinWrite
    | DuplicateFinWrite
    | PoolExceeded
}
