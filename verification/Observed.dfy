/** Two sides as their applications see them: the bytes that reads return are the bytes that writes took, in order. */
module Observed {
  import opened Prelude
  import opened StreamId
  import opened Endpoint
  import opened Local
  import opened Links
  import opened System
  import opened Safety
  import opened Delivery
  import opened History
  import Direction
  import Inbound
  import Outbound
  import Wakeups
  import Pools
  import Tables
  import Progress

  /** The logs of the two sides. */
  datatype Views = Views(client: Logs, server: Logs)

  const NO_VIEWS := Views(map[], map[])

  function LogsAt(v: Views, role: Role): Logs {
    if role.Client? then v.client else v.server
  }

  function WithLogs(v: Views, role: Role, logs: Logs): Views {
    if role.Client? then v.(client := logs) else v.(server := logs)
  }

  function LogAt(v: Views, role: Role, k: Ref): Log {
    LogOf(LogsAt(v, role), k, 0)
  }

  /** What an action adds to the logs. */
  function Seen(s: System, v: Views, a: Action): Views {
    var (e, logs) := (Side(s, a.role), LogsAt(v, a.role));
    match a
    case Opens(role, key) =>
      if IsVacantKey(e, key) && OpenOutbound(e, key, |s.ids|).Some?
      then WithLogs(v, role, logs[|s.ids| := Blank(OpenOutbound(e, key, |s.ids|).value.1)]) else v
    case Calls(role, k, call) =>
      if k in e.streams && k in logs then WithLogs(v, role, logs[k := Noted(logs[k], call, AnswerTo(e.streams[k], call))]) else v
    case Polls(role, k, allowance) =>
      if k in e.tasks && k in e.streams then WithLogs(v, role, SentNoted(logs, k, Poll(e, k, allowance).1)) else v
    case Delivers(role) =>
      if Chan(s, role) == [] then v
      else
        var part := Chan(s, role)[0];
        WithLogs(v, role.Peer(), GotNoted(LogsAt(v, role.Peer()), Addressee(Side(s, role.Peer()), part), part))
  }

  function SeenAll(s: System, v: Views, actions: seq<Action>): Views
    decreases |actions|
  {
    if actions == [] || Next(s, actions[0]).Err? then v
    else SeenAll(Next(s, actions[0]).value, Seen(s, v, actions[0]), actions[1..])
  }

  // What the logs of the two sides have to do with each other.

  /** The parts of a stream arrive as they were sent. */
  ghost predicate Ordered(s: System, v: Views, x: Role) {
    forall k: Ref :: LogAt(v, x, k).sent == LogAt(v, x.Peer(), k).got + PartsOf(Chan(s, x), k)
  }

  ghost predicate Watched(s: System, v: Views) {
    && Remembers(s.client, v.client) && Remembers(s.server, v.server)
    && Ordered(s, v, Client) && Ordered(s, v, Server)
  }

  lemma OrderedAt(s: System, v: Views, x: Role, k: Ref)
    requires Ordered(s, v, x)
    ensures LogAt(v, x, k).sent == LogAt(v, x.Peer(), k).got + PartsOf(Chan(s, x), k)
  {
  }

  lemma OrderedFrom(s: System, v: Views, x: Role)
    requires forall k: Ref :: LogAt(v, x, k).sent == LogAt(v, x.Peer(), k).got + PartsOf(Chan(s, x), k)
    ensures Ordered(s, v, x)
  {
  }

  lemma BothWatched(s: System, v: Views, x: Role)
    requires Watched(s, v)
    ensures Remembers(Side(s, x), LogsAt(v, x)) && Remembers(Side(s, x.Peer()), LogsAt(v, x.Peer()))
    ensures Ordered(s, v, x) && Ordered(s, v, x.Peer())
  {
    hide Remembers, Ordered;
  }

  lemma WatchedFrom(s: System, v: Views, x: Role)
    requires Remembers(Side(s, x), LogsAt(v, x)) && Remembers(Side(s, x.Peer()), LogsAt(v, x.Peer()))
    requires Ordered(s, v, x) && Ordered(s, v, x.Peer())
    ensures Watched(s, v)
  {
    hide Remembers, Ordered;
  }

  lemma SideHolds(s: System, x: Role)
    requires SysInv(s)
    ensures StreamsOk(Side(s, x)) && Tables.TableInv(Side(s, x))
  {
    hide LinksInv, ReuseInv, SlotInv, ChanInv, Tables.TableInv, Pools.PoolInv, Wakeups.WakeInv, StreamOk;
    forall k | k in Side(s, x).streams ensures StreamOk(Side(s, x).streams[k]) {
      Progress.StreamIsOk(s, x, k);
    }
  }

  /** One side notes something about its streams that is neither sent nor received. */
  lemma OrderedStays(s: System, v: Views, s': System, v': Views, x: Role)
    requires Ordered(s, v, x) && Ordered(s, v, x.Peer())
    requires s'.up == s.up && s'.down == s.down
    requires LogsAt(v', x.Peer()) == LogsAt(v, x.Peer())
    requires forall k: Ref :: LogAt(v', x, k).sent == LogAt(v, x, k).sent && LogAt(v', x, k).got == LogAt(v, x, k).got
    ensures Ordered(s', v', x) && Ordered(s', v', x.Peer())
  {
    hide PartsOf;
    assert forall k: Ref :: LogAt(v', x.Peer(), k) == LogAt(v, x.Peer(), k);
  }

  lemma OpenSeen(s: System, v: Views, x: Role, key: nat)
    requires SysInv(s) && Watched(s, v) && IsVacantKey(Side(s, x), key) && OpenOutbound(Side(s, x), key, |s.ids|).Some?
    ensures Watched(Opened(s, x, key), Seen(s, v, Action.Opens(x, key)))
  {
    hide SysInv, Remembers, OpenOutbound, IsVacantKey, Ordered;
    BothWatched(s, v, x);
    OpenRemembers(Side(s, x), LogsAt(v, x), key, |s.ids|);
    NotLogged(s, v, x);
    var (s', v') := (Opened(s, x, key), Seen(s, v, Action.Opens(x, key)));
    OrderedStays(s, v, s', v', x);
    WatchedFrom(s', v', x);
  }

  lemma NotLogged(s: System, v: Views, x: Role)
    requires SysInv(s) && Remembers(Side(s, x), LogsAt(v, x))
    ensures |s.ids| !in LogsAt(v, x)
  {
    hide SysInv, Tells;
    NewRef(s, x);
  }

  lemma CallSeen(s: System, v: Views, x: Role, k: Ref, call: AppCall)
    requires SysInv(s) && Watched(s, v) && k in Side(s, x).streams
    ensures Watched(WithSide(s, x, Call(Side(s, x), k, call)), Seen(s, v, Action.Calls(x, k, call)))
  {
    hide SysInv, Remembers, Call, AnswerTo, Ordered, StreamOk;
    BothWatched(s, v, x);
    SideHolds(s, x);
    CallRemembers(Side(s, x), LogsAt(v, x), k, call);
    var (s', v') := (WithSide(s, x, Call(Side(s, x), k, call)), Seen(s, v, Action.Calls(x, k, call)));
    OrderedStays(s, v, s', v', x);
    WatchedFrom(s', v', x);
  }

  lemma PollSeen(s: System, v: Views, x: Role, k: Ref, allowance: nat)
    requires SysInv(s) && Watched(s, v) && k in Side(s, x).tasks && k in Side(s, x).streams
    ensures Watched(Polled(s, x, k, allowance), Seen(s, v, Action.Polls(x, k, allowance)))
  {
    hide SysInv, Remembers, Poll, Ordered, StreamOk, SentNoted;
    BothWatched(s, v, x);
    SideHolds(s, x);
    PollRemembers(Side(s, x), LogsAt(v, x), k, allowance);
    PollOrdered(s, v, x, k, allowance);
    WatchedFrom(Polled(s, x, k, allowance), Seen(s, v, Action.Polls(x, k, allowance)), x);
  }

  lemma PollOrdered(s: System, v: Views, x: Role, k: Ref, allowance: nat)
    requires SysInv(s) && Watched(s, v) && k in Side(s, x).tasks && k in Side(s, x).streams
    ensures Ordered(Polled(s, x, k, allowance), Seen(s, v, Action.Polls(x, k, allowance)), x)
    ensures Ordered(Polled(s, x, k, allowance), Seen(s, v, Action.Polls(x, k, allowance)), x.Peer())
  {
    hide SysInv, Poll, PartsOf, Tells, Ordered;
    BothWatched(s, v, x);
    var part := Poll(Side(s, x), k, allowance).1;
    var (s', v') := (Polled(s, x, k, allowance), Seen(s, v, Action.Polls(x, k, allowance)));
    PollNames(s, x, k, allowance);
    forall j: Ref ensures LogAt(v', x, j).sent == LogAt(v', x.Peer(), j).got + PartsOf(Chan(s', x), j) {
      OrderedAt(s, v, x, j);
      if part.Some? {
        PartsAppend(Chan(s, x), part.value, j);
      }
    }
    forall j: Ref ensures LogAt(v', x.Peer(), j).sent == LogAt(v', x, j).got + PartsOf(Chan(s', x.Peer()), j) {
      OrderedAt(s, v, x.Peer(), j);
    }
    OrderedFrom(s', v', x);
    OrderedFrom(s', v', x.Peer());
  }

  lemma PollNames(s: System, x: Role, k: Ref, allowance: nat)
    requires k in Side(s, x).streams
    ensures var part := Poll(Side(s, x), k, allowance).1; part.Some? ==> part.value.tag == k
  {
    hide Inbound.PollIn, Outbound.PollOut, Yielded;
  }

  lemma DeliverSeen(s: System, v: Views, x: Role)
    requires SysInv(s) && Watched(s, v) && Chan(s, x) != []
    ensures Receive(Side(s, x.Peer()), Chan(s, x)[0]).Ok?
    ensures Watched(Delivered(s, x), Seen(s, v, Delivers(x)))
  {
    hide SysInv, Remembers, Receive, Ordered, StreamsOk, Tables.TableInv, Shaped, Lookup, PartsOf;
    BothWatched(s, v, x);
    SideHolds(s, x.Peer());
    Accepted(s, x);
    FindsStream(s, x);
    var part := Chan(s, x)[0];
    ReceiveRemembers(Side(s, x.Peer()), LogsAt(v, x.Peer()), part);
    DeliverOrdered(s, v, x);
    WatchedFrom(Delivered(s, x), Seen(s, v, Delivers(x)), x);
  }

  lemma DeliverOrdered(s: System, v: Views, x: Role)
    requires SysInv(s) && Watched(s, v) && Chan(s, x) != [] && Receive(Side(s, x.Peer()), Chan(s, x)[0]).Ok?
    ensures Ordered(Delivered(s, x), Seen(s, v, Delivers(x)), x)
    ensures Ordered(Delivered(s, x), Seen(s, v, Delivers(x)), x.Peer())
  {
    hide SysInv, Receive, PartsOf, Remembers, Lookup, Ordered;
    BothWatched(s, v, x);
    FindsStream(s, x);
    var (s', v') := (Delivered(s, x), Seen(s, v, Delivers(x)));
    assert Addressee(Side(s, x.Peer()), Chan(s, x)[0]) == Chan(s, x)[0].tag;
    forall j: Ref
      ensures LogAt(v', x, j).sent == LogAt(v', x.Peer(), j).got + PartsOf(Chan(s', x), j)
      ensures LogAt(v', x.Peer(), j).sent == LogAt(v', x, j).got + PartsOf(Chan(s', x.Peer()), j)
    {
      OrderedAt(s, v, x, j);
      OrderedAt(s, v, x.Peer(), j);
      FirstArrives(LogAt(v, x, j).sent, LogAt(v, x.Peer(), j).got, Chan(s, x), j);
    }
    OrderedFrom(s', v', x);
    OrderedFrom(s', v', x.Peer());
  }

  lemma FirstArrives(sent: seq<Part>, got: seq<Part>, ch: seq<Part>, j: Ref)
    requires ch != [] && sent == got + PartsOf(ch, j)
    ensures sent == (if ch[0].tag == j then got + [ch[0]] else got) + PartsOf(ch[1..], j)
  {
  }

  lemma StepSeen(s: System, v: Views, a: Action)
    requires SysInv(s) && Watched(s, v)
    ensures Next(s, a).Ok? && SysInv(Next(s, a).value) && Watched(Next(s, a).value, Seen(s, v, a))
  {
    hide SysInv, Watched, Receive, Poll, Call, OpenOutbound, IsVacantKey, AnswerTo, SentNoted, GotNoted;
    Step(s, a);
    match a
    case Opens(x, key) =>
      if IsVacantKey(Side(s, x), key) && OpenOutbound(Side(s, x), key, |s.ids|).Some? {
        OpenSeen(s, v, x, key);
      }
    case Calls(x, k, call) =>
      if k in Side(s, x).streams {
        CallSeen(s, v, x, k, call);
      }
    case Polls(x, k, allowance) =>
      if k in Side(s, x).tasks && k in Side(s, x).streams {
        PollSeen(s, v, x, k, allowance);
      }
    case Delivers(x) =>
      if Chan(s, x) != [] {
        DeliverSeen(s, v, x);
      }
  }

  lemma {:induction false} RunSeen(s: System, v: Views, actions: seq<Action>)
    requires SysInv(s) && Watched(s, v)
    ensures Run(s, actions).Ok? && SysInv(Run(s, actions).value) && Watched(Run(s, actions).value, SeenAll(s, v, actions))
    decreases |actions|
  {
    hide SysInv, Watched, Next, Seen;
    if actions != [] {
      StepSeen(s, v, actions[0]);
      RunSeen(Next(s, actions[0]).value, Seen(s, v, actions[0]), actions[1..]);
    }
  }

  // What the applications can rely on.

  lemma {:induction false} SaidPrefix(a: seq<Part>, b: seq<Part>)
    requires a <= b
    ensures DataIn(a) <= DataIn(b) && ChunksIn(a) <= ChunksIn(b)
    decreases |b|
  {
    if a != b {
      SaidPrefix(a, b[..|b| - 1]);
    }
  }

  lemma {:induction false} FlatPrefix(a: seq<Bytes>, b: seq<Bytes>)
    requires a <= b
    ensures Flat(a) <= Flat(b)
  {
    if a != [] {
      FlatPrefix(a[1..], b[1..]);
    }
  }

  /** The state of a run, and what was seen of it. */
  ghost predicate Shows(client: Config, server: Config, actions: seq<Action>, s: System, v: Views) {
    Reaches(client, server, actions, s) && v == SeenAll(Start(client, server), NO_VIEWS, actions)
  }

  lemma ShowsWatched(client: Config, server: Config, actions: seq<Action>, s: System, v: Views)
    requires Shows(client, server, actions, s, v)
    ensures SysInv(s) && Watched(s, v)
  {
    hide SysInv, Watched, Run, SeenAll, Start;
    StartInv(client, server);
    StartWatched(client, server);
    RunSeen(Start(client, server), NO_VIEWS, actions);
  }

  lemma StartWatched(client: Config, server: Config)
    ensures Watched(Start(client, server), NO_VIEWS)
  {
    NothingYet(Client, client);
    NothingYet(Server, server);
  }

  /** The logs and the history of the streams agree, also for a stream that a side does not have yet. */
  lemma AgreesAt(s: System, v: Views, x: Role, k: Ref, id: Id)
    requires Watched(s, v)
    ensures var (l, st) := (LogAt(v, x, k), At(Side(s, x), k, id));
            && l.wrote == st.out.accepted && Flat(l.read) == st.inn.taken && (st.inn.quit ==> l.stopped)
            && DataIn(l.sent) <= l.wrote && l.read <= ChunksIn(l.got)
            && ReaderClosed(l) == st.inn.state.Closed? && WriterClosed(l) == !st.out.state.Open?
  {
    hide Ordered;
    BothWatched(s, v, x);
    if k in LogsAt(v, x) {
      assert Tells(LogsAt(v, x)[k], Side(s, x).streams[k], Side(s, x).role);
    }
  }

  /**
   * In every run: the parts of a stream are received as they were sent. Each read returns the data of one part, in order.
   * So what reads returned is a prefix of what the peer's writes took, and all of it once a reader that did not stop sees
   * the end, or once nothing can happen any more without the applications.
   */
  lemma ReadsWhatWasWritten(client: Config, server: Config, actions: seq<Action>, s: System, v: Views, x: Role, k: Ref)
    requires Shows(client, server, actions, s, v)
    ensures var (a, b) := (LogAt(v, x, k), LogAt(v, x.Peer(), k));
            && b.got <= a.sent && b.read <= ChunksIn(a.sent) && Flat(b.read) <= a.wrote
            && (ReaderClosed(b) && !b.stopped ==> Flat(b.read) == a.wrote && WriterClosed(a))
            && (Quiet(s) && !b.stopped ==> Flat(b.read) == a.wrote)
  {
    hide SysInv, Run, SeenAll, Start, Quiet, FinReadIn, FinWriteIn, Watched, ReaderClosed, WriterClosed, At, Flat, ChunksIn, DataIn, LogAt;
    ShowsWatched(client, server, actions, s, v);
    var (a, b) := (LogAt(v, x, k), LogAt(v, x.Peer(), k));
    var id := if k < |s.ids| then s.ids[k] else 0;
    AgreesAt(s, v, x, k, id);
    AgreesAt(s, v, x.Peer(), k, id);
    Received(s, v, x, k);
    FlatPrefix(b.read, ChunksIn(a.sent));
    FlatChunks(a.sent);
    if k < |s.ids| {
      AtTheEnd(client, server, actions, s, x, k);
      if Quiet(s) {
        QuietPipe(s, x, k);
      }
    } else {
      NoLogs(s, v, x, k);
    }
  }

  lemma Received(s: System, v: Views, x: Role, k: Ref)
    requires Watched(s, v)
    ensures var (a, b) := (LogAt(v, x, k), LogAt(v, x.Peer(), k));
            b.got <= a.sent && ChunksIn(b.got) <= ChunksIn(a.sent)
  {
    hide Remembers, Ordered, PartsOf, ChunksIn;
    BothWatched(s, v, x);
    OrderedAt(s, v, x, k);
    SaidPrefix(LogAt(v, x.Peer(), k).got, LogAt(v, x, k).sent);
  }

  lemma NoLogs(s: System, v: Views, x: Role, k: Ref)
    requires SysInv(s) && Watched(s, v) && k >= |s.ids|
    ensures LogAt(v, x, k) == Blank(0) && LogAt(v, x.Peer(), k) == Blank(0)
    ensures !ReaderClosed(Blank(0)) && Flat([]) == []
  {
    hide SysInv, Tells, Ordered, PartsOf;
    BothWatched(s, v, x);
    if k in Side(s, x).streams {
      KeysBelow(s, x, k);
    }
    if k in Side(s, x.Peer()).streams {
      KeysBelow(s, x.Peer(), k);
    }
  }

  lemma AtTheEnd(client: Config, server: Config, actions: seq<Action>, s: System, x: Role, k: Ref)
    requires Reaches(client, server, actions, s) && k < |s.ids|
    ensures var (o, i) := (At(Side(s, x), k, s.ids[k]).out, At(Side(s, x.Peer()), k, s.ids[k]).inn);
            i.state.Closed? && !i.quit ==> i.taken == o.accepted && o.state.Closed?
  {
    hide SysInv, Run, Start, At;
    Integrity(client, server, actions, s, x, k);
  }

  /**
   * From any state of any run, let tasks run, frames arrive and readers read, in any order, until no such step is possible.
   * Then the chunks that reads returned to an application that did not stop are exactly the bytes that the writes of its
   * peer took.
   */
  lemma EverythingIsRead(client: Config, server: Config, actions: seq<Action>, s: System, v: Views, steps: seq<Action>, x: Role, k: Ref)
    requires Shows(client, server, actions, s, v) && Progress.ProgressRun(s, steps) && k < |s.ids|
    ensures Run(s, steps).Ok? && |steps| <= Progress.Rank(s)
    ensures (forall a: Action :: !Progress.Progresses(Run(s, steps).value, a)) && !LogAt(v, x.Peer(), k).stopped ==>
              Flat(LogAt(SeenAll(s, v, steps), x.Peer(), k).read) == LogAt(v, x, k).wrote
  {
    hide SysInv, Run, SeenAll, Start, Watched, Progress.ProgressRun, Progress.Progresses, Progress.Rank, Flat, At, LogAt, ReaderClosed, WriterClosed;
    ShowsWatched(client, server, actions, s, v);
    Progress.EverythingArrives(client, server, actions, s, steps, x, k);
    RunSeen(s, v, steps);
    var (t, v') := (Run(s, steps).value, SeenAll(s, v, steps));
    AgreesAt(s, v, x, k, s.ids[k]);
    AgreesAt(s, v, x.Peer(), k, s.ids[k]);
    AgreesAt(t, v', x.Peer(), k, s.ids[k]);
  }
}
