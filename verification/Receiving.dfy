/** The receiver of one direction, as the object that is updated in place. It refines the functions of `Inbound`. */
module Receiving {
  import opened Prelude
  import opened Fins
  import opened Flow
  import opened ConnFlow
  import opened Inbound

  class InboundTraffic {
    var state: State
    const window: Window
    /** Credit that is held back so far. */
    var credit: nat
    const creditThreshold: nat
    ghost var taken: Bytes
    ghost var quit: bool
    ghost var forgotten: nat

    constructor (base: nat)
      ensures Value() == NEW_IN && fresh(window)
      ensures window.base == base && creditThreshold == CreditThreshold(base)
    {
      state, credit, taken, quit, forgotten := Open([]), 0, [], false, 0;
      window := new Window(base);
      creditThreshold := CreditThreshold(base);
    }

    ghost function Value(): In
      reads this, window
    {
      In(state, window.unacked, credit, taken, quit, forgotten)
    }

    function FinState(): (f: Fins.FinState)
      reads this, window
      ensures f == InFin(Value())
    {
      if state.Closed? then state.fin else NO_FINS
    }

    /** The share of the stream is a part of what the streams use, and it read no more than it received. */
    ghost predicate Fits(pool: Pool)
      reads this, window, pool
    {
      window.Share() <= pool.used && credit <= window.unacked
    }

    // The application side.

    method PollRead(wakers: Wakers, me: Ref) returns (r: ReadResult)
      requires state.HalfClosed? ==> state.ready != []
      modifies this, wakers
      ensures (Value(), r) == Read(old(Value()))
      ensures match r
              case Data(chunk) =>
                && !old(state).Closed? && old(state).ready == [chunk] + (if state.Closed? then [] else state.ready)
                && taken == old(taken) + chunk && credit == old(credit) + |chunk|
              case Pending => old(state).Open? && old(state).ready == [] && Value() == old(Value())
              case End => old(state).Closed? && Value() == old(Value())
      ensures wakers.awake == if ReadWakes(old(Value()), creditThreshold) then old(wakers.awake) + {me} else old(wakers.awake)
    {
      if state.Closed? {
        return End;
      }
      if state.ready == [] {
        return Pending;
      }
      var data, rest := state.ready[0], state.ready[1..];
      if state.HalfClosed? && rest == [] {
        state := Closed(Fins.FinState(false, true));
        wakers.Wake(me);
      } else {
        state := state.(ready := rest);
      }
      credit, taken := credit + |data|, taken + data;
      if credit >= creditThreshold {
        wakers.Wake(me);
      }
      return Data(data);
    }

    method CloseReading(wakers: Wakers, me: Ref)
      modifies this, wakers
      ensures Value() == Inbound.CloseReading(old(Value()))
      ensures state.Closed? && Unread(Value()) == [] && taken == old(taken)
      ensures FinReadSent(Value()) == FinReadSent(old(Value())) && FinWriteReceived(Value()) == FinWriteReceived(old(Value()))
      ensures wakers.awake == if CloseReadingWakes(old(Value())) then old(wakers.awake) + {me} else old(wakers.awake)
    {
      if state.Closed? {
        return;
      }
      state, quit := Closed(Fins.FinState(false, state.HalfClosed?)), true;
      wakers.Wake(me);
    }

    // The connection side.

    method PollUpdate(flow: ConnFlow) returns (sent: Option<Credit>)
      requires Fits(flow.rxPool) && flow.Valid()
      modifies this, window, flow.rxPool
      ensures flow.Valid()
      ensures InPoll(Value(), flow.Value(), sent) == PollIn(old(Value()), old(flow.Value()), window.base, creditThreshold)
    {
      if !state.Closed? {
        if credit < creditThreshold {
          return None;
        }
        var sending := Min(credit, MAX_CREDIT);
        credit := credit - sending;
        var _ := window.Set(flow.rxPool, window.unacked - sending);
        return Some(Credit(sending, false));
      }
      if state.fin.sent {
        return None;
      }
      forgotten := window.unacked;
      state, credit := Closed(state.fin.(sent := true)), 0;
      var _ := window.Set(flow.rxPool, 0);
      return Some(Credit(0, true));
    }

    method ReceivedData(data: Bytes, flow: ConnFlow) returns (r: Result<(), Violation>)
      requires Fits(flow.rxPool) && flow.Valid()
      modifies this, window, flow.rxPool
      ensures flow.Valid()
      ensures match Inbound.ReceivedData(old(Value()), old(flow.Value()), window.base, data)
              case Err(e) =>
                var unacked := if e == PoolExceeded then old(window.unacked) + |data| else old(window.unacked);
                && r == Err(e) && Value() == old(Value()).(unacked := unacked)
                && flow.Value() == Counted(old(Value()), old(flow.Value()), window.base, unacked)
              case Ok(after) => r == Ok(()) && (Value(), flow.Value()) == after
    {
      if data == [] {
        return Ok(());
      }
      if state.HalfClosed? || (state.Closed? && state.fin.received) {
        return Err(DataAfterFinWrite);
      }
      if state.Closed? && state.fin.sent {
        forgotten := forgotten + |data|;
        return Ok(());
      }
      r := Count(flow.rxPool, |data|);
      if r.Ok? && state.Open? {
        state := Open(state.ready + [data]);
      }
    }

    /** Adds to the count and to the pool, and fails exactly if that overdraws the pool. */
    method Count(pool: Pool, len: nat) returns (r: Result<(), Violation>)
      requires Fits(pool)
      modifies window, pool
      ensures window.unacked == old(window.unacked) + len
      ensures pool.used == Moved(old(pool.used), old(window.Share()), window.Share())
      ensures r == if pool.used > pool.size then Err(PoolExceeded) else Ok(())
    {
      window.Add(pool, len);
      return if pool.IsOverdrawn() then Err(PoolExceeded) else Ok(());
    }

    method ReceivedFinWrite(wakers: Wakers, me: Ref) returns (r: Result<(), Violation>)
      modifies this, wakers
      ensures match Inbound.ReceivedFinWrite(old(Value()))
              case Err(e) => r == Err(e) && Value() == old(Value())
              case Ok(after) => r == Ok(()) && Value() == after
      ensures wakers.awake == if FinWriteWakes(old(Value())) then old(wakers.awake) + {me} else old(wakers.awake)
    {
      if state.HalfClosed? || (state.Closed? && state.fin.received) {
        return Err(DuplicateFinWrite);
      }
      if state.Closed? {
        state := Closed(state.fin.(received := true));
      } else if state.ready != [] {
        state := HalfClosed(state.ready);
      } else {
        wakers.Wake(me);
        state := Closed(Fins.FinState(false, true));
      }
      return Ok(());
    }
  }
}
