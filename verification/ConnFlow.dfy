/** Both pools, the turn queue, and who was woken: one value for what all streams of a side act on. */
module SharedFlow {
  import opened Prelude
  import opened TurnQueue

  /**
   * The shared state as a value. `awake` holds the streams whose task was woken, or yielded,
   * since it was last polled.
   */
  datatype Shared = Shared(rxSize: nat, rxUsed: nat, txSize: nat, txUsed: nat, queue: seq<Ref>, awake: set<Ref>)

  predicate TxRoom(s: Shared) {
    s.txUsed < s.txSize
  }

  function Wake(s: Shared, me: Ref): Shared {
    s.(awake := s.awake + {me})
  }

  function WakeFront(s: Shared): (r: Shared)
    ensures r == s.(awake := r.awake)
  {
    if s.queue == [] then s else Wake(s, s.queue[0])
  }

  /** The stream gives up its place. The new front is woken, but only if the place was its own and it could borrow. */
  function PassTurn(s: Shared, me: Ref): (r: Shared)
    ensures r == s.(queue := r.queue, awake := r.awake)
  {
    var left := s.(queue := Leave(s.queue, me));
    if me in s.queue && TxRoom(s) then WakeFront(left) else left
  }
}

/** The shared state as the objects that the streams update in place. */
module ConnFlow {
  import opened Prelude
  import opened Flow
  import TurnQueue
  import opened SharedFlow

  /** The wakers of the stream tasks. */
  class Wakers {
    var awake: set<Ref>

    constructor ()
      ensures awake == {}
    {
      awake := {};
    }

    method Wake(stream: Ref)
      modifies this
      ensures awake == old(awake) + {stream}
    {
      awake := awake + {stream};
    }

    method Clear(stream: Ref)
      modifies this
      ensures awake == old(awake) - {stream}
    {
      awake := awake - {stream};
    }
  }

  /** The turn queue, front first. */
  class Turns {
    var queue: seq<Ref>

    constructor ()
      ensures queue == []
    {
      queue := [];
    }

    method Join(stream: Ref)
      requires TurnQueue.Distinct(queue)
      modifies this
      ensures queue == TurnQueue.Join(old(queue), stream)
      ensures TurnQueue.Distinct(queue)
    {
      TurnQueue.JoinMembers(queue, stream);
      if stream !in queue {
        queue := queue + [stream];
      }
    }

    method Leave(stream: Ref) returns (was: bool)
      requires TurnQueue.Distinct(queue)
      modifies this
      ensures queue == TurnQueue.Leave(old(queue), stream)
      ensures TurnQueue.Distinct(queue)
      ensures was <==> stream in old(queue)
    {
      TurnQueue.LeaveMembers(queue, stream);
      var i := 0;
      while i < |queue| && queue[i] != stream
        invariant i <= |queue|
        invariant stream !in queue[..i]
      {
        i := i + 1;
      }
      was := i < |queue|;
      if was {
        TurnQueue.LeaveAt(queue, i);
        queue := queue[..i] + queue[i + 1..];
      }
    }

    method WakeFront(wakers: Wakers)
      modifies wakers
      ensures wakers.awake == if queue == [] then old(wakers.awake) else old(wakers.awake) + {queue[0]}
    {
      if queue != [] {
        wakers.Wake(queue[0]);
      }
    }
  }

  class ConnFlow {
    const rxPool: Pool
    const txPool: Pool
    const turns: Turns
    const wakers: Wakers

    constructor (rxSize: nat, txSize: nat)
      ensures Valid() && fresh(Repr())
      ensures Value() == Shared(rxSize, 0, txSize, 0, [], {})
    {
      rxPool := new Pool(rxSize);
      txPool := new Pool(txSize);
      turns := new Turns();
      wakers := new Wakers();
    }

    ghost function Repr(): set<object> {
      {rxPool, txPool, turns, wakers}
    }

    ghost predicate Valid()
      reads turns
    {
      rxPool != txPool && TurnQueue.Distinct(turns.queue)
    }

    function Value(): Shared
      reads rxPool, txPool, turns, wakers
    {
      Shared(rxPool.size, rxPool.used, txPool.size, txPool.used, turns.queue, wakers.awake)
    }

    method PassTurn(stream: Ref)
      requires Valid()
      modifies turns, wakers
      ensures Valid() && Value() == SharedFlow.PassTurn(old(Value()), stream)
    {
      var was := turns.Leave(stream);
      if was && txPool.Room() > 0 {
        turns.WakeFront(wakers);
      }
    }
  }
}
