/** The receiver of one direction, as functions on values. */
module Inbound {
  import opened Prelude
  import opened Fins
  import opened Flow
  import opened SharedFlow

  datatype State =
    | Open(ready: seq<Bytes>)
    | HalfClosed(ready: seq<Bytes>)
    | Closed(fin: FinState)

  /**
   * `taken`, `quit` and `forgotten` are history: the bytes the application read, whether it stopped reading
   * on its own, and the bytes that were dropped from the count because of `FIN_READ`.
   */
  datatype In = In(state: State, unacked: nat, credit: nat, taken: Bytes, quit: bool, forgotten: nat)

  const NEW_IN := In(Open([]), 0, 0, [], false, 0)

  const MAX_CREDIT: nat := 0xFFFF_FFFF

  /** An update for the sender: an amount of credit, or `FIN_READ`. */
  datatype Credit = Credit(amount: nat, fin: bool)

  function Unread(i: In): Bytes {
    if i.state.Closed? then [] else Flat(i.state.ready)
  }

  function InFin(i: In): FinState {
    if i.state.Closed? then i.state.fin else NO_FINS
  }

  predicate FinReadSent(i: In) {
    InFin(i).sent
  }

  predicate FinWriteReceived(i: In) {
    i.state.HalfClosed? || InFin(i).received
  }

  // The application side.

  datatype ReadResult = Pending | Data(chunk: Bytes) | End

  function Read(i: In): (In, ReadResult) {
    match i.state
    case Closed(_) => (i, End)
    case Open(ready) =>
      if ready == [] then (i, Pending)
      else (Took(i, ready[0], Open(ready[1..])), Data(ready[0]))
    case HalfClosed(ready) =>
      if ready == [] then (i, Pending) // a half-closed direction always has data to read
      else
        var rest := ready[1..];
        (Took(i, ready[0], if rest == [] then Closed(FinState(false, true)) else HalfClosed(rest)), Data(ready[0]))
  }

  function Took(i: In, chunk: Bytes, state: State): In {
    i.(state := state, credit := i.credit + |chunk|, taken := i.taken + chunk)
  }

  predicate ReadWakes(i: In, threshold: nat) {
    var (after, result) := Read(i);
    result.Data? && (after.state.Closed? || after.credit >= threshold)
  }

  function CloseReading(i: In): In {
    if i.state.Closed? then i
    else i.(state := Closed(FinState(false, i.state.HalfClosed?)), quit := true)
  }

  predicate CloseReadingWakes(i: In) {
    !i.state.Closed?
  }

  // The connection side.

  datatype InPoll = InPoll(i: In, sh: Shared, sent: Option<Credit>)

  function Counted(i: In, sh: Shared, base: nat, unacked: nat): Shared {
    sh.(rxUsed := Moved(sh.rxUsed, Borrowed(i.unacked, base), Borrowed(unacked, base)))
  }

  function PollIn(i: In, sh: Shared, base: nat, threshold: nat): InPoll {
    if !i.state.Closed? then
      if i.credit < threshold then InPoll(i, sh, None)
      else
        var credit := Min(i.credit, MAX_CREDIT);
        var unacked := Minus(i.unacked, credit);
        InPoll(i.(credit := i.credit - credit, unacked := unacked), Counted(i, sh, base, unacked),
               Some(Credit(credit, false)))
    else if i.state.fin.sent then InPoll(i, sh, None)
    else
      InPoll(i.(state := Closed(i.state.fin.(sent := true)), credit := 0, unacked := 0, forgotten := i.unacked),
             Counted(i, sh, base, 0), Some(Credit(0, true)))
  }

  function ReceivedData(i: In, sh: Shared, base: nat, data: Bytes): Result<(In, Shared), Violation> {
    if data == [] then Ok((i, sh))
    else if FinWriteReceived(i) then Err(DataAfterFinWrite)
    else if FinReadSent(i) then Ok((i.(forgotten := i.forgotten + |data|), sh))
    else
      var unacked := i.unacked + |data|;
      var counted := Counted(i, sh, base, unacked);
      if counted.rxUsed > counted.rxSize then Err(PoolExceeded)
      else
        var state := if i.state.Open? then Open(i.state.ready + [data]) else i.state;
        Ok((i.(state := state, unacked := unacked), counted))
  }

  function ReceivedFinWrite(i: In): Result<In, Violation> {
    if FinWriteReceived(i) then Err(DuplicateFinWrite)
    else if i.state.Closed? then Ok(i.(state := Closed(i.state.fin.(received := true))))
    else if i.state.ready != [] then Ok(i.(state := HalfClosed(i.state.ready)))
    else Ok(i.(state := Closed(FinState(false, true))))
  }

  predicate FinWriteWakes(i: In) {
    i.state.Open? && i.state.ready == []
  }
}
