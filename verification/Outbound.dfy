/** The sender of one direction, as functions on values. */
module Outbound {
  import opened Prelude
  import opened Fins
  import opened Flow
  import opened TurnQueue
  import opened SharedFlow

  datatype State =
    | Open(ready: Bytes)
    | HalfClosed(ready: Bytes)
    | Closed(fin: FinState)

  /** `accepted` is history: everything the application wrote so far. */
  datatype Out = Out(state: State, unacked: nat, accepted: Bytes)

  const NEW_OUT := Out(Open([]), 0, [])

  /** Data for the peer's reader, and whether `FIN_WRITE` follows it. */
  datatype Chunk = Chunk(data: Bytes, fin: bool)

  function Waiting(o: Out): Bytes {
    if o.state.Closed? then [] else o.state.ready
  }

  function OutFin(o: Out): FinState {
    if o.state.Closed? then o.state.fin else NO_FINS
  }

  predicate FinWriteSent(o: Out) {
    OutFin(o).sent
  }

  predicate FinReadReceived(o: Out) {
    OutFin(o).received
  }

  // The application side.

  datatype WriteResult = Accepted | NotReady | BrokenPipe

  function Write(o: Out, data: Bytes): (r: (Out, WriteResult)) {
    if !o.state.Open? then (o, BrokenPipe)
    else if o.state.ready != [] then (o, NotReady)
    else (o.(state := Open(data), accepted := o.accepted + data), Accepted)
  }

  /** A write wakes the task of the stream if it took any data. */
  predicate WriteWakes(o: Out, data: Bytes) {
    Write(o, data).1.Accepted? && data != []
  }

  function CloseWriting(o: Out): Out {
    if !o.state.Open? then o
    else if o.state.ready == [] then o.(state := Closed(NO_FINS))
    else o.(state := HalfClosed(o.state.ready))
  }

  predicate CloseWritingWakes(o: Out) {
    o.state.Open? && o.state.ready == []
  }

  // The connection side.

  /** How many bytes are sent now, and what is in flight and shared after that. */
  datatype Planned = Planned(n: nat, unacked: nat, sh: Shared)

  function Sends(sh: Shared, unacked: nat, base: nat, n: nat): Shared {
    sh.(txUsed := Moved(sh.txUsed, Borrowed(unacked, base), Borrowed(unacked + n, base)))
  }

  function Plan(me: Ref, waiting: nat, unacked: nat, sh: Shared, base: nat, limit: nat, allowance: nat): Planned {
    var room := BaseRoom(unacked, base);
    var full := Min(limit, waiting);
    if waiting == 0 then
      Planned(0, unacked, PassTurn(sh, me))
    else if room >= full then
      Planned(full, unacked + full, Sends(sh, unacked, base, full))
    else
      var mayBorrow := Minus(allowance, Borrowed(unacked, base));
      var shared := if HasTurn(sh.queue, me) then Min(mayBorrow, Minus(sh.txSize, sh.txUsed)) else 0;
      var n := Min(full, room + shared);
      if n == 0 then
        Planned(0, unacked, if mayBorrow == 0 then PassTurn(sh, me) else sh.(queue := Join(sh.queue, me)))
      else
        var sent := Sends(sh, unacked, base, n);
        Planned(n, unacked + n, if n > room then TakesTurn(sent, me, waiting > n) else sent)
  }

  /** After borrowing, a stream goes to the back of the queue, or leaves it if nothing is left. */
  function TakesTurn(sh: Shared, me: Ref, more: bool): Shared {
    var left := Leave(sh.queue, me);
    var next := sh.(queue := if more then Join(left, me) else left);
    if TxRoom(next) then WakeFront(next) else next
  }

  datatype OutPoll = OutPoll(o: Out, sh: Shared, sent: Option<Chunk>)

  function PollOut(me: Ref, o: Out, sh: Shared, base: nat, limit: nat, allowance: nat): OutPoll {
    if o.state.Closed? then
      var passed := PassTurn(sh, me);
      if o.state.fin.sent then OutPoll(o, passed, None)
      else OutPoll(o.(state := Closed(o.state.fin.(sent := true))), passed, Some(Chunk([], true)))
    else
      var ready := o.state.ready;
      var p := Plan(me, |ready|, o.unacked, sh, base, limit, allowance);
      if p.n == 0 || p.n > |ready| then OutPoll(o, p.sh, None)
      else
        var rest := ready[p.n..];
        var fin := o.state.HalfClosed? && rest == [];
        var state := if fin then Closed(FinState(true, false)) else o.state.(ready := rest);
        OutPoll(o.(state := state, unacked := p.unacked), p.sh, Some(Chunk(ready[..p.n], fin)))
  }

  function ReceivedWindow(me: Ref, o: Out, sh: Shared, base: nat, credit: nat): Result<(Out, Shared), Violation> {
    if FinReadReceived(o) then Err(WindowAfterFinRead)
    else if credit > o.unacked then Err(TooMuchCredit)
    else
      var unacked := o.unacked - credit;
      var freed := SetUnacked(o, sh, base, unacked);
      Ok((o.(unacked := unacked), if Waiting(o) != [] then Wake(freed, me) else freed))
  }

  /** Changes the bytes in flight. If that returns some of the pool, the front of the queue is woken. */
  function SetUnacked(o: Out, sh: Shared, base: nat, unacked: nat): Shared {
    var moved := sh.(txUsed := Moved(sh.txUsed, Borrowed(o.unacked, base), Borrowed(unacked, base)));
    if Borrowed(unacked, base) < Borrowed(o.unacked, base) then WakeFront(moved) else moved
  }

  function ReceivedFinRead(me: Ref, o: Out, sh: Shared, base: nat): Result<(Out, Shared), Violation> {
    if FinReadReceived(o) then Err(DuplicateFinRead)
    else
      var woken := if o.state.Closed? then sh else Wake(sh, me);
      Ok((Out(Closed(FinState(FinWriteSent(o), true)), 0, o.accepted), SetUnacked(o, woken, base, 0)))
  }
}
