/** The sender of one direction, as the object that is updated in place. It refines the functions of `Outbound`. */
module Sending {
  import opened Prelude
  import opened Fins
  import opened Flow
  import opened ConnFlow
  import TurnQueue
  import opened Outbound

  /** The count of the sender, and the decision that changes it. */
  class Ledger {
    const window: Window
    const frameLimit: nat

    constructor (frameLimit: nat, base: nat)
      ensures this.frameLimit == frameLimit && window.base == base && window.unacked == 0 && fresh(window)
    {
      this.frameLimit := frameLimit;
      window := new Window(base);
    }

    /** The share of the stream is a part of what the streams use. */
    ghost predicate Fits(flow: ConnFlow)
      reads window, flow.txPool, flow.turns
    {
      flow.Valid() && window.Share() <= flow.txPool.used
    }

    /** `Outbound.Plan` in place: the window, the pool, the queue and the wake-ups become what it says. */
    method Plan(flow: ConnFlow, me: Ref, waiting: nat, allowance: nat) returns (len: Option<nat>)
      requires Fits(flow) && frameLimit > 0
      modifies window, flow.txPool, flow.turns, flow.wakers
      ensures flow.Valid()
      ensures var p := Outbound.Plan(me, waiting, old(window.unacked), old(flow.Value()), window.base, frameLimit, allowance);
              && flow.Value() == p.sh && window.unacked == p.unacked
              && len == if p.n == 0 then None else Some(p.n)
    {
      hide TakesTurn, SharedFlow.PassTurn, TurnQueue.Join, TurnQueue.Distinct;
      if waiting == 0 {
        flow.PassTurn(me);
        return None;
      }
      var room := BaseRoom(window.unacked, window.base);
      var full := Min(frameLimit, waiting);
      if room >= full {
        window.Add(flow.txPool, full);
        return Some(full);
      }
      var mayBorrow := Minus(allowance, window.Share());
      var shared := if TurnQueue.HasTurn(flow.turns.queue, me) then Min(mayBorrow, flow.txPool.Room()) else 0;
      var n := Min(full, room + shared);
      if n == 0 {
        if mayBorrow == 0 {
          flow.PassTurn(me);
        } else {
          flow.turns.Join(me);
        }
        return None;
      }
      window.Add(flow.txPool, n);
      if n > room {
        GiveTurn(flow, me, waiting > n);
      }
      return Some(n);
    }

    /** The stream borrowed: the next one is first in line. */
    static method GiveTurn(flow: ConnFlow, me: Ref, more: bool)
      requires flow.Valid()
      modifies flow.turns, flow.wakers
      ensures flow.Valid() && flow.Value() == TakesTurn(old(flow.Value()), me, more)
    {
      var _ := flow.turns.Leave(me);
      if more {
        flow.turns.Join(me);
      }
      if flow.txPool.Room() > 0 {
        flow.turns.WakeFront(flow.wakers);
      }
    }
  }

  class OutboundTraffic {
    var state: State
    const ledger: Ledger
    ghost var accepted: Bytes

    constructor (frameLimit: nat, base: nat)
      ensures Value() == NEW_OUT && fresh(ledger) && fresh(ledger.window)
      ensures ledger.frameLimit == frameLimit && ledger.window.base == base
    {
      state, accepted := Open([]), [];
      ledger := new Ledger(frameLimit, base);
    }

    ghost function Value(): Out
      reads this, ledger.window
    {
      Out(state, ledger.window.unacked, accepted)
    }

    function FinState(): (f: Fins.FinState)
      reads this, ledger.window
      ensures f == OutFin(Value())
    {
      if state.Closed? then state.fin else NO_FINS
    }

    // The application side.

    method Write(data: Bytes, wakers: Wakers, me: Ref) returns (r: WriteResult)
      modifies this, wakers
      ensures (Value(), r) == Outbound.Write(old(Value()), data)
      ensures r.Accepted? <==> old(state) == Open([])
      ensures r.BrokenPipe? <==> !old(state).Open?
      ensures state == if r.Accepted? then Open(data) else old(state)
      ensures accepted == if r.Accepted? then old(accepted) + data else old(accepted)
      ensures wakers.awake == if WriteWakes(old(Value()), data) then old(wakers.awake) + {me} else old(wakers.awake)
    {
      if !state.Open? {
        return BrokenPipe;
      }
      if state.ready != [] {
        return NotReady;
      }
      if data != [] {
        state, accepted := Open(data), accepted + data;
        wakers.Wake(me);
      } else {
        assert accepted + data == accepted;
      }
      return Accepted;
    }

    method CloseWriting(wakers: Wakers, me: Ref)
      modifies this, wakers
      ensures Value() == Outbound.CloseWriting(old(Value()))
      ensures !state.Open? && Waiting(Value()) == Waiting(old(Value())) && OutFin(Value()) == OutFin(old(Value()))
      ensures wakers.awake == if CloseWritingWakes(old(Value())) then old(wakers.awake) + {me} else old(wakers.awake)
    {
      if !state.Open? {
        return;
      }
      if state.ready == [] {
        wakers.Wake(me);
        state := Closed(NO_FINS);
      } else {
        state := HalfClosed(state.ready);
      }
    }

    // The connection side.

    method PollUpdate(flow: ConnFlow, me: Ref, allowance: nat) returns (sent: Option<Chunk>)
      requires ledger.Fits(flow) && ledger.frameLimit > 0
      modifies this, ledger.window, flow.txPool, flow.turns, flow.wakers
      ensures flow.Valid()
      ensures OutPoll(Value(), flow.Value(), sent)
           == PollOut(me, old(Value()), old(flow.Value()), ledger.window.base, ledger.frameLimit, allowance)
    {
      if state.Closed? {
        flow.PassTurn(me);
        if state.fin.sent {
          return None;
        }
        state := Closed(state.fin.(sent := true));
        return Some(Chunk([], true));
      }
      var ready := state.ready;
      var len := ledger.Plan(flow, me, |ready|, allowance);
      if len.None? {
        return None;
      }
      var n := len.value;
      if state.HalfClosed? && n == |ready| {
        assert ready[..n] == ready;
        state := Closed(Fins.FinState(true, false));
        return Some(Chunk(ready, true));
      }
      state := state.(ready := ready[n..]);
      return Some(Chunk(ready[..n], false));
    }

    method ReceivedWindowUpdate(credit: nat, flow: ConnFlow, me: Ref) returns (r: Result<(), Violation>)
      requires ledger.Fits(flow)
      modifies this, ledger.window, flow.txPool, flow.wakers
      ensures flow.Valid()
      ensures match ReceivedWindow(me, old(Value()), old(flow.Value()), ledger.window.base, credit)
              case Err(e) => r == Err(e) && Value() == old(Value()) && flow.Value() == old(flow.Value())
              case Ok(after) => r == Ok(()) && (Value(), flow.Value()) == after
    {
      if state.Closed? && state.fin.received {
        return Err(WindowAfterFinRead);
      }
      if credit > ledger.window.unacked {
        return Err(TooMuchCredit);
      }
      var freed := ledger.window.Set(flow.txPool, ledger.window.unacked - credit);
      if freed {
        flow.turns.WakeFront(flow.wakers);
      }
      if !state.Closed? && state.ready != [] {
        flow.wakers.Wake(me);
      }
      return Ok(());
    }

    method ReceivedFinRead(flow: ConnFlow, me: Ref) returns (r: Result<(), Violation>)
      requires ledger.Fits(flow)
      modifies this, ledger.window, flow.txPool, flow.wakers
      ensures flow.Valid()
      ensures match Outbound.ReceivedFinRead(me, old(Value()), old(flow.Value()), ledger.window.base)
              case Err(e) => r == Err(e) && Value() == old(Value()) && flow.Value() == old(flow.Value())
              case Ok(after) => r == Ok(()) && (Value(), flow.Value()) == after
    {
      r := CloseReadingSide(flow.wakers, me);
      if r.Err? {
        return;
      }
      var freed := ledger.window.Set(flow.txPool, 0);
      if freed {
        flow.turns.WakeFront(flow.wakers);
      }
    }

    method CloseReadingSide(wakers: Wakers, me: Ref) returns (r: Result<(), Violation>)
      modifies this`state, wakers
      ensures r == if FinReadReceived(old(Value())) then Err(DuplicateFinRead) else Ok(())
      ensures state == if r.Err? then old(state) else Closed(Fins.FinState(FinWriteSent(old(Value())), true))
      ensures wakers.awake == if old(state).Closed? then old(wakers.awake) else old(wakers.awake) + {me}
    {
      if state.Closed? {
        if state.fin.received {
          return Err(DuplicateFinRead);
        }
        state := Closed(state.fin.(received := true));
      } else {
        wakers.Wake(me);
        state := Closed(Fins.FinState(false, true));
      }
      return Ok(());
    }
  }
}
