/** What two conforming endpoints achieve together: conservation, integrity, no deadlock, no leaked streams. */
module Delivery {
  import opened Prelude
  import opened Flow
  import opened StreamId
  import opened Endpoint
  import opened Local
  import opened Links
  import opened System
  import opened Safety
  import Direction
  import Outbound
  import Inbound
  import Wakeups
  import Pools
  import Tables

  ghost predicate Reaches(client: Config, server: Config, actions: seq<Action>, s: System) {
    && ConfigsMatch(client, server) && ConfigsMatch(server, client)
    && Run(Start(client, server), actions) == Ok(s)
  }

  // What is in flight for one incarnation, straight from the channel.

  function DataInFlight(ch: seq<Part>, k: Ref): Bytes {
    if ch == [] then [] else (if ch[0].tag == k then ch[0].data else []) + DataInFlight(ch[1..], k)
  }

  function CreditInFlight(ch: seq<Part>, k: Ref): nat {
    if ch == [] then 0 else (if ch[0].tag == k then ch[0].credit else 0) + CreditInFlight(ch[1..], k)
  }

  lemma {:induction false} InFlight(ch: seq<Part>, k: Ref)
    ensures DataInFlight(ch, k) == Direction.DataOf(FwdOf(PartsOf(ch, k)))
    ensures CreditInFlight(ch, k) == Direction.CreditOf(BwdOf(PartsOf(ch, k)))
  {
    hide FwdOf, BwdOf, Direction.DataOf, Direction.CreditOf;
    if ch == [] {
      NothingInFlight();
    } else {
      InFlight(ch[1..], k);
      var ps := PartsOf(ch, k);
      if ch[0].tag == k {
        assert ps[0] == ch[0] && ps[1..] == PartsOf(ch[1..], k);
        FirstItems(ps);
      } else {
        assert ps == PartsOf(ch[1..], k);
      }
    }
  }

  lemma NothingInFlight()
    ensures Direction.DataOf(FwdOf([])) == [] && Direction.CreditOf(BwdOf([])) == 0
  {
  }

  lemma FirstItems(ps: seq<Part>)
    requires ps != []
    ensures Direction.DataOf(FwdOf(ps)) == ps[0].data + Direction.DataOf(FwdOf(ps[1..]))
    ensures Direction.CreditOf(BwdOf(ps)) == ps[0].credit + Direction.CreditOf(BwdOf(ps[1..]))
  {
    hide FwdOf, BwdOf;
    ItemsPop(ps);
    DataFirst(ps[0], FwdOf(ps[1..]));
    CreditFirst(ps[0], BwdOf(ps[1..]));
  }

  lemma DataFirst(p: Part, rest: seq<Direction.Chunk>)
    ensures Direction.DataOf(FwdItem(p) + rest) == p.data + Direction.DataOf(rest)
  {
    if FwdItem(p) != [] {
      assert (FwdItem(p) + rest)[1..] == rest;
    } else {
      assert FwdItem(p) + rest == rest;
    }
  }

  lemma CreditFirst(p: Part, rest: seq<Direction.Credit>)
    ensures Direction.CreditOf(BwdItem(p) + rest) == p.credit + Direction.CreditOf(rest)
  {
    if BwdItem(p) != [] {
      assert (BwdItem(p) + rest)[1..] == rest;
    } else {
      assert BwdItem(p) + rest == rest;
    }
  }

  /** One direction: from the side `x` to its peer. */
  lemma Pipe(s: System, x: Role, k: Ref)
    requires SysInv(s) && k < |s.ids|
    ensures Direction.DirInv(At(Side(s, x), k, s.ids[k]).out, At(Side(s, x.Peer()), k, s.ids[k]).inn,
                             FwdOf(PartsOf(Chan(s, x), k)), BwdOf(PartsOf(Chan(s, x.Peer()), k)))
  {
    hide SysInv, LocalInv, Direction.DirInv, PartsOf, FwdOf, BwdOf, SynOk, Named;
    Facts(s, x, k);
  }

  /**
   * Conservation. What the sender counts is what the receiver counts, what is in flight, the credit on its way back,
   * and what was forgotten because of `FIN_READ`. So the sender never counts less, and credit never exceeds its count.
   */
  lemma Conservation(client: Config, server: Config, actions: seq<Action>, s: System, x: Role, k: Ref)
    requires Reaches(client, server, actions, s) && k < |s.ids|
    ensures var (o, i) := (At(Side(s, x), k, s.ids[k]).out, At(Side(s, x.Peer()), k, s.ids[k]).inn);
            && (!Outbound.FinReadReceived(o) ==>
                  o.unacked == i.unacked + |DataInFlight(Chan(s, x), k)| + CreditInFlight(Chan(s, x.Peer()), k) + i.forgotten)
            && (Outbound.FinReadReceived(o) ==> o.unacked == 0 == i.unacked)
            && (i.forgotten > 0 ==> Inbound.FinReadSent(i))
            && i.unacked <= o.unacked
            && CreditInFlight(Chan(s, x.Peer()), k) <= o.unacked
  {
    hide SysInv, PartsOf, Run, FwdOf, BwdOf;
    NoViolation(client, server, actions);
    Pipe(s, x, k);
    InFlight(Chan(s, x), k);
    InFlight(Chan(s, x.Peer()), k);
  }

  /**
   * Integrity. Unless the reader stopped on its own, what the writer wrote is what was read, what waits to be read,
   * what is in flight and what waits to be sent, in this order. The end of the stream comes after all of it.
   */
  lemma Integrity(client: Config, server: Config, actions: seq<Action>, s: System, x: Role, k: Ref)
    requires Reaches(client, server, actions, s) && k < |s.ids|
    ensures var (o, i) := (At(Side(s, x), k, s.ids[k]).out, At(Side(s, x.Peer()), k, s.ids[k]).inn);
            !i.quit ==>
              && o.accepted == i.taken + Inbound.Unread(i) + DataInFlight(Chan(s, x), k) + Outbound.Waiting(o)
              && (Inbound.Read(i).1.End? ==> i.taken == o.accepted && o.state.Closed?)
  {
    hide SysInv, PartsOf, Run, FwdOf, BwdOf, Inbound.Read;
    NoViolation(client, server, actions);
    Pipe(s, x, k);
    InFlight(Chan(s, x), k);
    var (o, i) := (At(Side(s, x), k, s.ids[k]).out, At(Side(s, x.Peer()), k, s.ids[k]).inn);
    if Inbound.Read(i).1.End? && !i.quit {
      Direction.EndMeansEverything(o, i, FwdOf(PartsOf(Chan(s, x), k)), BwdOf(PartsOf(Chan(s, x.Peer()), k)));
    }
  }

  // Quiescence.

  /** Nothing can happen without the applications: nobody is awake, nothing is in flight, everything is read. */
  ghost predicate Quiet(s: System) {
    && s.up == [] && s.down == []
    && s.client.sh.awake == {} && s.server.sh.awake == {}
    && (forall x: Role, k: Ref | k in Side(s, x).streams :: Inbound.Unread(Side(s, x).streams[k].inn) == [])
  }

  /** The stream cannot do anything on its own. */
  ghost predicate Rests(cfg: Config, st: Stream) {
    && (StreamFin(st).sent || Wakeups.Idle(cfg, st))
    && Inbound.Unread(st.inn) == []
  }

  lemma QuietRests(s: System, x: Role, k: Ref)
    requires SysInv(s) && Quiet(s) && k < |s.ids|
    ensures Rests(Side(s, x).cfg, At(Side(s, x), k, s.ids[k]))
    ensures PartsOf(Chan(s, x), k) == []
  {
    hide LinksInv, ReuseInv, SlotInv, ChanInv, Tables.TableInv, Pools.PoolInv, Wakeups.Idle, Wakeups.FrontAwake;
    if k in Side(s, x).streams {
      assert Wakeups.TaskOk(Side(s, x), k);
    } else {
      NewRests(Side(s, x).cfg, s.ids[k]);
    }
  }

  lemma NewRests(cfg: Config, id: Id)
    ensures Rests(cfg, NewStream(id, false))
  {
  }

  /** At rest, both ends of a direction agree, on less than the credit threshold, and nothing waits. */
  lemma RestingPipe(cx: Config, cy: Config, x: Stream, y: Stream)
    requires Direction.DirInv(x.out, y.inn, [], [])
    requires Rests(cx, x) && Rests(cy, y)
    requires 1 <= cy.localWindow == cx.remoteWindow
    ensures Outbound.Waiting(x.out) == []
    ensures x.out.unacked == y.inn.unacked < CreditThreshold(cy.localWindow)
    ensures !y.inn.quit ==> y.inn.taken == x.out.accepted
  {
    var t := CreditThreshold(cy.localWindow);
    assert y.inn.unacked < t;
    assert BaseRoom(y.inn.unacked, cy.localWindow) >= 1;
    assert Direction.DataOf([]) == [] && Direction.CreditOf([]) == 0;
  }

  lemma QuietPipe(s: System, x: Role, k: Ref)
    requires SysInv(s) && Quiet(s) && k < |s.ids|
    ensures var (a, b) := (At(Side(s, x), k, s.ids[k]), At(Side(s, x.Peer()), k, s.ids[k]));
            && Outbound.Waiting(a.out) == []
            && a.out.unacked == b.inn.unacked < CreditThreshold(Side(s, x.Peer()).cfg.localWindow)
            && (!b.inn.quit ==> b.inn.taken == a.out.accepted)
  {
    hide LinksInv, ReuseInv, SlotInv, ChanInv, LocalInv, Rests, Direction.DirInv, Quiet, At;
    QuietRests(s, x, k);
    QuietRests(s, x.Peer(), k);
    Pipe(s, x, k);
    RestingPipe(Side(s, x).cfg, Side(s, x.Peer()).cfg, At(Side(s, x), k, s.ids[k]), At(Side(s, x.Peer()), k, s.ids[k]));
  }

  lemma QuietQueue(s: System, x: Role)
    requires SysInv(s) && Quiet(s)
    ensures Side(s, x).sh.queue == []
  {
    hide LinksInv, ReuseInv, SlotInv, ChanInv, Tables.TableInv, Pools.PoolInv, Wakeups.Idle;
    var e := Side(s, x);
    if e.sh.queue != [] {
      var k := e.sh.queue[0];
      KeysBelow(s, x, k);
      assert Wakeups.TaskOk(e, k);
      QuietPipe(s, x, k);
    }
  }

  lemma {:induction false} TotalZero(f: Ref -> nat, n: nat)
    requires forall k: Ref | k < n :: f(k) == 0
    ensures Total(f, n) == 0
  {
    if n > 0 {
      TotalZero(f, n - 1);
    }
  }

  lemma QuietPools(s: System, x: Role)
    requires SysInv(s) && Quiet(s)
    ensures Side(s, x).sh.txUsed == 0 && Side(s, x.Peer()).sh.rxUsed == 0
  {
    hide LinksInv, ReuseInv, SlotInv, ChanInv, Tables.TableInv, Wakeups.WakeInv, Quiet, Total;
    var (d, e) := (Side(s, x), Side(s, x.Peer()));
    var tx := Pools.TxShare(d.streams, d.cfg.remoteWindow);
    var rx := Pools.RxShare(e.streams, e.cfg.localWindow);
    forall k: Ref | k < |s.ids| ensures tx(k) == 0 && rx(k) == 0 {
      QuietPipe(s, x, k);
      assert BaseRoom(At(d, k, s.ids[k]).out.unacked, e.cfg.localWindow) >= 1;
    }
    TotalZero(tx, |s.ids|);
    TotalZero(rx, |s.ids|);
  }

  /**
   * No deadlock. When nothing can happen without the applications, no sender has bytes waiting, no stream waits for
   * a turn, the pools are unused, the two ends of every direction agree on a count below the credit threshold,
   * and everything that was written was read, unless the reader stopped on its own.
   */
  lemma NoDeadlock(client: Config, server: Config, actions: seq<Action>, s: System, x: Role)
    requires Reaches(client, server, actions, s) && Quiet(s)
    ensures Side(s, x).sh.queue == [] && Side(s, x).sh.txUsed == 0 == Side(s, x).sh.rxUsed
    ensures forall k: Ref | k < |s.ids| ::
              var (o, i) := (At(Side(s, x), k, s.ids[k]).out, At(Side(s, x.Peer()), k, s.ids[k]).inn);
              && Outbound.Waiting(o) == []
              && o.unacked == i.unacked < CreditThreshold(Side(s, x.Peer()).cfg.localWindow)
              && (!i.quit ==> i.taken == o.accepted)
  {
    hide SysInv, Quiet, Run, At;
    NoViolation(client, server, actions);
    QuietQueue(s, x);
    QuietPools(s, x);
    QuietPools(s, x.Peer());
    forall k: Ref | k < |s.ids|
      ensures var (o, i) := (At(Side(s, x), k, s.ids[k]).out, At(Side(s, x.Peer()), k, s.ids[k]).inn);
              && Outbound.Waiting(o) == []
              && o.unacked == i.unacked < CreditThreshold(Side(s, x.Peer()).cfg.localWindow)
              && (!i.quit ==> i.taken == o.accepted)
    {
      QuietPipe(s, x, k);
    }
  }

  // No leaks.

  lemma HalfClosedHasData(i: Inbound.In)
    requires Direction.InOk(i)
    ensures i.state.HalfClosed? ==> Inbound.Unread(i) != []
  {
    if i.state.HalfClosed? {
      assert i.state.ready[0] in i.state.ready;
    }
  }

  lemma NothingHalfClosed(o: Outbound.Out)
    requires Direction.OutOk(o) && Outbound.Waiting(o) == []
    ensures !o.state.HalfClosed?
  {
  }

  lemma ClosedIsDead(cx: Config, cy: Config, x: Stream, y: Stream)
    requires DuplexInv(x, y, [], [])
    requires Rests(cx, x) && Rests(cy, y)
    requires x.out.state.Closed? && x.inn.state.Closed?
    ensures Dead(x) && Dead(y)
  {
    HalfClosedHasData(y.inn);
    assert FwdOf([]) == [] && BwdOf([]) == [];
  }

  /**
   * No leaks. If one side dropped both halves of a stream, also while it had data to send, then at quiescence both sides
   * have forgotten it, its ID is free on both sides, and it waits for no turn.
   */
  lemma NoLeak(client: Config, server: Config, actions: seq<Action>, s: System, x: Role, k: Ref)
    requires Reaches(client, server, actions, s) && Quiet(s)
    requires k in Side(s, x).streams
    requires !Side(s, x).streams[k].out.state.Open? && Side(s, x).streams[k].inn.state.Closed?
    ensures k < |s.ids| && k in Side(s, x.Peer()).streams
    ensures Lookup(Side(s, x), s.ids[k]) != Some(k) && Lookup(Side(s, x.Peer()), s.ids[k]) != Some(k)
    ensures k !in Side(s, x).tasks && k !in Side(s, x.Peer()).tasks
    ensures k !in Side(s, x).sh.queue && k !in Side(s, x.Peer()).sh.queue
  {
    hide SysInv, Quiet, Run, Rests, DuplexInv, PartsOf;
    NoViolation(client, server, actions);
    KeysBelow(s, x, k);
    QuietRests(s, x, k);
    QuietRests(s, x.Peer(), k);
    Facts(s, x, k);
    var (a, b) := (Side(s, x).streams[k], At(Side(s, x.Peer()), k, s.ids[k]));
    QuietPipe(s, x, k);
    Pipe(s, x, k);
    NothingHalfClosed(a.out);
    ClosedIsDead(Side(s, x).cfg, Side(s, x.Peer()).cfg, a, b);
    QuietQueue(s, x);
    QuietQueue(s, x.Peer());
    Forgotten(s, x, k);
    Forgotten(s, x.Peer(), k);
  }

  lemma Forgotten(s: System, x: Role, k: Ref)
    requires SysInv(s) && k in Side(s, x).streams && Dead(Side(s, x).streams[k])
    ensures k < |s.ids| && Lookup(Side(s, x), s.ids[k]) != Some(k) && k !in Side(s, x).tasks
  {
    hide LinksInv, ReuseInv, SlotInv, ChanInv, Wakeups.Idle;
    KeysBelow(s, x, k);
    Facts(s, x, k);
    assert Wakeups.TaskOk(Side(s, x), k);
  }
}
