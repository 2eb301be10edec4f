/**
 * Liveness. With no new writes, letting tasks run, frames arrive and readers read always comes to an end,
 * in whatever order that happens, and then everything has arrived.
 */
module Progress {
  import opened Prelude
  import opened TurnQueue
  import opened SharedFlow
  import opened StreamId
  import opened Endpoint
  import opened Local
  import opened Links
  import opened System
  import opened Safety
  import opened Delivery
  import Direction
  import Outbound
  import Inbound
  import Wakeups
  import Pools
  import Tables

  // How much is left to do. A byte gets lighter with every step from the writer to the reader,
  // and its credit gets lighter on the way back.

  function One(b: bool): nat {
    if b then 1 else 0
  }

  function PartWeight(p: Part): nat {
    4 * |p.data| + p.credit + One(p.finRead) + One(p.finWrite)
  }

  function OutWeight(o: Outbound.Out): nat {
    5 * |Outbound.Waiting(o)| + 2 * One(!Outbound.FinWriteSent(o))
  }

  function InWeight(i: Inbound.In): nat {
    3 * |Inbound.Unread(i)| + 2 * i.credit + 2 * One(!Inbound.FinReadSent(i))
  }

  function StreamWeight(s: Stream): nat {
    OutWeight(s.out) + InWeight(s.inn)
  }

  function ChanWeight(ch: seq<Part>): nat {
    if ch == [] then 0 else PartWeight(ch[0]) + ChanWeight(ch[1..])
  }

  lemma {:induction false} ChanWeightAppend(ch: seq<Part>, p: Part)
    ensures ChanWeight(ch + [p]) == ChanWeight(ch) + PartWeight(p)
  {
    if ch == [] {
      assert ChanWeight([p]) == PartWeight(p) + ChanWeight([p][1..]);
    } else {
      ChanWeightAppend(ch[1..], p);
      assert (ch + [p])[1..] == ch[1..] + [p];
    }
  }

  ghost function WeightAt(e: Endpoint): Ref -> nat {
    (k: Ref) => StreamWeight(At(e, k, 0))
  }

  ghost function Weight(s: System): nat {
    Total(WeightAt(s.client), |s.ids|) + Total(WeightAt(s.server), |s.ids|) + ChanWeight(s.up) + ChanWeight(s.down)
  }

  // What the steps do to the weight of a stream.

  lemma PollInWeight(i: Inbound.In, sh: Shared, base: nat, threshold: nat)
    requires Direction.InOk(i) && threshold >= 1
    ensures var p := Inbound.PollIn(i, sh, base, threshold);
            && (p.sent.None? ==> p.i == i)
            && (p.sent.Some? ==> InWeight(p.i) + p.sent.value.amount + One(p.sent.value.fin) < InWeight(i))
  {
  }

  lemma PollOutWeight(o: Outbound.Out, me: Ref, sh: Shared, base: nat, limit: nat, allowance: nat)
    requires Direction.OutOk(o)
    ensures var p := Outbound.PollOut(me, o, sh, base, limit, allowance);
            && (p.sent.None? ==> p.o == o)
            && (p.sent.Some? ==> OutWeight(p.o) + 4 * |p.sent.value.data| + One(p.sent.value.fin) < OutWeight(o))
  {
    hide Outbound.PollOut, Outbound.Waiting;
    Direction.PollOutSends(o, me, sh, base, limit, allowance);
  }

  lemma PollWeight(e: Endpoint, k: Ref, allowance: nat)
    requires k in e.streams && StreamOk(e.streams[k])
    ensures var (e', part) := Poll(e, k, allowance);
            && k in e'.streams
            && (part.None? ==> e'.streams[k] == e.streams[k])
            && (part.Some? ==> StreamWeight(e'.streams[k]) + PartWeight(part.value) < StreamWeight(e.streams[k]))
  {
    hide Inbound.PollIn, Outbound.PollOut, OutWeight, InWeight, PassTurn, Forget, Dead, StreamFin, Direction.OutOk, Direction.InOk;
    var s := e.streams[k];
    var sh := e.sh.(awake := e.sh.awake - {k});
    PollInWeight(s.inn, sh, e.cfg.localWindow, Threshold(e));
    var ip := Inbound.PollIn(s.inn, sh, e.cfg.localWindow, Threshold(e));
    PollOutWeight(s.out, k, ip.sh, e.cfg.remoteWindow, e.cfg.frameLimit, allowance);
  }

  lemma WindowWeight(cfg: Config, k: Ref, s: Stream, sh: Shared, part: Part)
    ensures var r := ArriveWindow(cfg, k, s, sh, part); r.Ok? ==> StreamWeight(r.value.0) == StreamWeight(s)
    ensures var r := ArriveFinWrite(k, s, sh, part); r.Ok? ==> StreamWeight(r.value.0) == StreamWeight(s)
    ensures var r := ArriveFinRead(cfg, k, s, sh, part); r.Ok? ==> StreamWeight(r.value.0) <= StreamWeight(s)
  {
  }

  lemma DataWeight(cfg: Config, s: Stream, sh: Shared, part: Part)
    ensures var r := ArriveData(cfg, s, sh, part); r.Ok? ==> StreamWeight(r.value.0) <= StreamWeight(s) + 3 * |part.data|
  {
    if s.inn.state.Open? {
      FlatAppend(s.inn.state.ready, part.data);
    }
  }

  lemma ReceivedWeight(cfg: Config, k: Ref, s: Stream, sh: Shared, part: Part)
    requires Received(cfg, k, s, sh, part).Ok? && NonTrivial(part)
    ensures StreamWeight(Received(cfg, k, s, sh, part).value.0) < StreamWeight(s) + PartWeight(part)
  {
    hide ArriveWindow, ArriveData, ArriveFinWrite, ArriveFinRead, StreamWeight;
    var (s1, sh1) := ArriveWindow(cfg, k, s, sh, part).value;
    WindowWeight(cfg, k, s, sh, part);
    var (s2, sh2) := ArriveData(cfg, s1, sh1, part).value;
    DataWeight(cfg, s1, sh1, part);
    var (s3, sh3) := ArriveFinWrite(k, s2, sh2, part).value;
    WindowWeight(cfg, k, s2, sh2, part);
    WindowWeight(cfg, k, s3, sh3, part);
  }

  lemma ReadWeight(s: Stream)
    requires StreamOk(s) && Inbound.Read(s.inn).1.Data?
    ensures StreamWeight(Called(s, Read)) < StreamWeight(s)
  {
    var ready := s.inn.state.ready;
    assert ready[0] in ready;
    assert Flat(ready) == ready[0] + Flat(ready[1..]);
    assert Flat([]) == [];
  }

  // A task that finds nothing to do goes to sleep, or makes room for another one.

  ghost function Busy(e: Endpoint): nat {
    2 * |e.sh.awake| + |e.sh.queue|
  }

  lemma PassTurnBusy(sh: Shared, me: Ref)
    requires Distinct(sh.queue)
    ensures var sh' := PassTurn(sh, me);
            2 * |sh'.awake| + |sh'.queue| <= 2 * |sh.awake| + |sh.queue| + 1
  {
    LeaveMembers(sh.queue, me);
  }

  lemma PollOutBusy(me: Ref, o: Outbound.Out, sh: Shared, base: nat, limit: nat, allowance: nat)
    requires Distinct(sh.queue)
    ensures var p := Outbound.PollOut(me, o, sh, base, limit, allowance);
            p.sent.None? ==> 2 * |p.sh.awake| + |p.sh.queue| <= 2 * |sh.awake| + |sh.queue| + 1
  {
    hide PassTurn;
    PassTurnBusy(sh, me);
    if !o.state.Closed? {
      Direction.PlanCounts(me, |o.state.ready|, o.unacked, sh, base, limit, allowance);
    }
  }

  lemma PollBusy(e: Endpoint, k: Ref, allowance: nat)
    requires k in e.streams && Distinct(e.sh.queue) && k in e.sh.awake
    requires Poll(e, k, allowance).1.None?
    ensures Busy(Poll(e, k, allowance).0) < Busy(e)
  {
    hide Outbound.PollOut;
    var s := e.streams[k];
    var ip := Inbound.PollIn(s.inn, e.sh.(awake := e.sh.awake - {k}), e.cfg.localWindow, Threshold(e));
    PollOutBusy(k, s.out, ip.sh, e.cfg.remoteWindow, e.cfg.frameLimit, allowance);
    assert |e.sh.awake - {k}| == |e.sh.awake| - 1;
  }

  ghost function Members(q: seq<Ref>): set<Ref> {
    set k | k in q
  }

  lemma {:induction false} DistinctCount(q: seq<Ref>)
    requires Distinct(q)
    ensures |Members(q)| == |q|
  {
    if q != [] {
      DistinctCount(q[1..]);
      assert q[0] !in q[1..];
      assert Members(q) == {q[0]} + Members(q[1..]);
    }
  }

  lemma BusyBound(e: Endpoint, n: nat)
    requires LocalInv(e, n)
    ensures Busy(e) <= 3 * n
  {
    hide Total, Tables.TableInv, Wakeups.TaskOk;
    Tables.BoundedSet(e.sh.awake, n);
    DistinctCount(e.sh.queue);
    Tables.BoundedSet(Members(e.sh.queue), n);
  }

  // The steps of the system.

  /** A step that needs no decision of an application, except to read what is there. */
  ghost predicate Progresses(s: System, a: Action) {
    match a
    case Opens(_, _) => false
    case Calls(x, k, call) => call.Read? && k in Side(s, x).streams && Inbound.Read(Side(s, x).streams[k].inn).1.Data?
    case Polls(x, k, _) => k in Side(s, x).sh.awake
    case Delivers(x) => Chan(s, x) != []
  }

  lemma OneWeight(e: Endpoint, e': Endpoint, n: nat, k: Ref, id: Id)
    requires k < n && k in e'.streams && e'.streams == e.streams[k := e'.streams[k]]
    ensures Total(WeightAt(e'), n) + StreamWeight(At(e, k, id)) == Total(WeightAt(e), n) + StreamWeight(e'.streams[k])
  {
    hide Total, OutWeight, InWeight;
    assert StreamWeight(At(e, k, id)) == StreamWeight(At(e, k, 0));
    TotalUpdate(WeightAt(e), WeightAt(e'), n, k);
  }

  lemma StreamIsOk(s: System, x: Role, k: Ref)
    requires SysInv(s) && k in Side(s, x).streams
    ensures k < |s.ids| && StreamOk(Side(s, x).streams[k])
  {
    hide SysInv, PartsOf, FwdOf, BwdOf, LocalInv, SynOk;
    KeysBelow(s, x, k);
    Pipe(s, x, k);
    Pipe(s, x.Peer(), k);
  }

  lemma ReadLighter(s: System, x: Role, k: Ref)
    requires SysInv(s) && Progresses(s, Action.Calls(x, k, Read))
    ensures var s' := Next(s, Action.Calls(x, k, Read)).value; Weight(s') < Weight(s) && s'.ids == s.ids
  {
    hide SysInv, Total, Called, CallWakes, StreamWeight, ChanWeight, StreamOk;
    StreamIsOk(s, x, k);
    var e := Side(s, x);
    ReadWeight(e.streams[k]);
    OneWeight(e, Call(e, k, Read), |s.ids|, k, 0);
  }

  lemma SentWeight(ch: seq<Part>, part: Option<Part>)
    ensures ChanWeight(Sent(ch, part)) == ChanWeight(ch) + if part.Some? then PartWeight(part.value) else 0
  {
    if part.Some? {
      ChanWeightAppend(ch, part.value);
    }
  }

  lemma PollLighter(s: System, x: Role, k: Ref, allowance: nat)
    requires SysInv(s) && k in Side(s, x).sh.awake
    ensures k in Side(s, x).tasks && k in Side(s, x).streams
    ensures var s' := Polled(s, x, k, allowance);
            && s'.ids == s.ids
            && (Weight(s') < Weight(s)
                || (Weight(s') == Weight(s) && Busy(s'.client) + Busy(s'.server) < Busy(s.client) + Busy(s.server)))
  {
    hide SysInv, Total, Poll, StreamWeight, ChanWeight, StreamOk, PartWeight, Dead, Distinct;
    AwakeFacts(s, x, k);
    StreamIsOk(s, x, k);
    var e := Side(s, x);
    var (e', part) := Poll(e, k, allowance);
    PollWeight(e, k, allowance);
    PollShape(e, k, allowance);
    OneWeight(e, e', |s.ids|, k, 0);
    SentWeight(Chan(s, x), part);
    if part.None? {
      PollBusy(e, k, allowance);
    }
  }

  lemma AwakeFacts(s: System, x: Role, k: Ref)
    requires SysInv(s) && k in Side(s, x).sh.awake
    ensures k in Side(s, x).tasks && k in Side(s, x).streams
    ensures !StreamFin(Side(s, x).streams[k]).sent && Distinct(Side(s, x).sh.queue)
  {
    hide LinksInv, ReuseInv, SlotInv, ChanInv, Tables.TableInv, Pools.PoolInv, Wakeups.Idle;
    assert Wakeups.TaskOk(Side(s, x), k);
  }

  lemma ReceiveWeight(e: Endpoint, part: Part)
    requires Receive(e, part).Ok? && NonTrivial(part)
    requires part.tag in e.streams ==> Lookup(e, part.id) == Some(part.tag)
    requires part.tag !in e.streams ==> Lookup(e, part.id).None?
    ensures var e' := Receive(e, part).value;
            && part.tag in e'.streams
            && StreamWeight(e'.streams[part.tag]) < StreamWeight(At(e, part.tag, part.id)) + PartWeight(part)
  {
    hide Received, StreamWeight, PartWeight, NonTrivial, Dead, Forget;
    var sh := if part.tag in e.streams then e.sh else Wake(e.sh, part.tag);
    ReceivedWeight(e.cfg, part.tag, At(e, part.tag, part.id), sh, part);
  }

  lemma DeliverLighter(s: System, x: Role)
    requires SysInv(s) && Chan(s, x) != []
    ensures Receive(Side(s, x.Peer()), Chan(s, x)[0]).Ok?
    ensures var s' := Delivered(s, x); Weight(s') < Weight(s) && s'.ids == s.ids
  {
    hide SysInv, LocalInv, Total, Receive, StreamWeight, PartWeight, Dead, DuplexInv, NonTrivial, PartsOf;
    Accepted(s, x);
    FindsStream(s, x);
    ChansOk(s);
    var (part, e) := (Chan(s, x)[0], Side(s, x.Peer()));
    ReceiveWeight(e, part);
    OneWeight(e, Receive(e, part).value, |s.ids|, part.tag, part.id);
  }

  function RankOf(w: nat, n: nat, b: nat): nat {
    w * (6 * n + 1) + b
  }

  /** Everything that is left to do, in one number. */
  ghost function Rank(s: System): nat {
    RankOf(Weight(s), |s.ids|, Busy(s.client) + Busy(s.server))
  }

  lemma RankFalls(w: nat, w': nat, n: nat, b: nat, b': nat)
    requires b <= 6 * n && b' <= 6 * n
    requires w' < w || (w' == w && b' < b)
    ensures RankOf(w', n, b') < RankOf(w, n, b)
  {
    if w' < w {
      assert w' * (6 * n + 1) + (6 * n + 1) == (w' + 1) * (6 * n + 1) <= w * (6 * n + 1);
    }
  }

  /** The weight falls, or it stays and there is less to run. */
  ghost predicate Lighter(s: System, s': System) {
    && s'.ids == s.ids
    && (Weight(s') < Weight(s)
        || (Weight(s') == Weight(s) && Busy(s'.client) + Busy(s'.server) < Busy(s.client) + Busy(s.server)))
  }

  lemma StepLighter(s: System, a: Action)
    requires SysInv(s) && Progresses(s, a)
    ensures Next(s, a).Ok? && Lighter(s, Next(s, a).value)
  {
    hide SysInv, Weight, Busy, Poll, Receive, Call;
    match a
    case Calls(x, k, call) => ReadLighter(s, x, k);
    case Polls(x, k, allowance) => PollLighter(s, x, k, allowance);
    case Delivers(x) => DeliverLighter(s, x);
  }

  lemma StepAdvances(s: System, a: Action)
    requires SysInv(s) && Progresses(s, a)
    ensures Next(s, a).Ok? && SysInv(Next(s, a).value) && Rank(Next(s, a).value) < Rank(s)
  {
    hide LinksInv, ReuseInv, SlotInv, ChanInv, LocalInv, Next, Weight, Busy, Progresses;
    Step(s, a);
    StepLighter(s, a);
    var s' := Next(s, a).value;
    BusyBound(s.client, |s.ids|);
    BusyBound(s.server, |s.ids|);
    BusyBound(s'.client, |s.ids|);
    BusyBound(s'.server, |s.ids|);
    RankFalls(Weight(s), Weight(s'), |s.ids|, Busy(s.client) + Busy(s.server), Busy(s'.client) + Busy(s'.server));
  }

  // Runs.

  ghost predicate ProgressRun(s: System, actions: seq<Action>)
    decreases |actions|
  {
    actions != [] ==>
      Progresses(s, actions[0]) && Next(s, actions[0]).Ok? && ProgressRun(Next(s, actions[0]).value, actions[1..])
  }

  /** Draining terminates: no order of steps goes on for longer than the rank. */
  lemma {:induction false} DrainingTerminates(s: System, actions: seq<Action>)
    requires SysInv(s) && ProgressRun(s, actions)
    ensures Run(s, actions).Ok? && SysInv(Run(s, actions).value)
    ensures |actions| + Rank(Run(s, actions).value) <= Rank(s)
    decreases |actions|
  {
    hide SysInv, Rank, Next, Progresses;
    if actions != [] {
      StepAdvances(s, actions[0]);
      DrainingTerminates(Next(s, actions[0]).value, actions[1..]);
    }
  }

  /** If no step is possible, nothing is left to do. */
  lemma StuckIsQuiet(s: System)
    requires SysInv(s) && forall a: Action :: !Progresses(s, a)
    ensures Quiet(s)
  {
    hide SysInv;
    assert !Progresses(s, Delivers(Client)) && !Progresses(s, Delivers(Server));
    NobodyAwake(s, Client);
    NobodyAwake(s, Server);
    forall x: Role, k: Ref | k in Side(s, x).streams ensures Inbound.Unread(Side(s, x).streams[k].inn) == [] {
      assert !Progresses(s, Action.Calls(x, k, Read));
    }
  }

  lemma NobodyAwake(s: System, x: Role)
    requires forall a: Action :: !Progresses(s, a)
    ensures Side(s, x).sh.awake == {}
  {
    forall k: Ref ensures k !in Side(s, x).sh.awake {
      assert !Progresses(s, Action.Polls(x, k, 0));
    }
  }

  // Nothing is written or given up on the way.

  /** What the application wrote, and whether it stopped reading. */
  ghost predicate SameIntent(a: Stream, b: Stream) {
    a.out.accepted == b.out.accepted && a.inn.quit == b.inn.quit
  }

  ghost predicate SameIntents(s: System, s': System) {
    && s'.ids == s.ids
    && (forall x: Role, k: Ref, id: Id :: SameIntent(At(Side(s, x), k, id), At(Side(s', x), k, id)))
  }

  lemma PartsIntent(k: Ref, o: Outbound.Out, i: Inbound.In, sh: Shared, base: nat, limit: nat, threshold: nat, allowance: nat)
    ensures Outbound.PollOut(k, o, sh, base, limit, allowance).o.accepted == o.accepted
    ensures Inbound.PollIn(i, sh, base, threshold).i.quit == i.quit
  {
    hide Outbound.Plan, PassTurn;
  }

  lemma PollIntent(e: Endpoint, k: Ref, allowance: nat)
    requires k in e.streams
    ensures k in Poll(e, k, allowance).0.streams && SameIntent(e.streams[k], Poll(e, k, allowance).0.streams[k])
  {
    hide Outbound.PollOut, Inbound.PollIn, PassTurn, Forget, Dead, StreamFin;
    var s := e.streams[k];
    var sh := e.sh.(awake := e.sh.awake - {k});
    PartsIntent(k, s.out, s.inn, sh, e.cfg.localWindow, 0, Threshold(e), 0);
    var ip := Inbound.PollIn(s.inn, sh, e.cfg.localWindow, Threshold(e));
    PartsIntent(k, s.out, s.inn, ip.sh, e.cfg.remoteWindow, e.cfg.frameLimit, 0, allowance);
  }

  lemma ReceivedIntent(cfg: Config, k: Ref, s: Stream, sh: Shared, part: Part)
    requires Received(cfg, k, s, sh, part).Ok?
    ensures SameIntent(s, Received(cfg, k, s, sh, part).value.0)
  {
    hide Outbound.SetUnacked;
  }

  lemma ReceiveIntent(e: Endpoint, part: Part)
    requires Receive(e, part).Ok?
    requires part.tag in e.streams ==> Lookup(e, part.id) == Some(part.tag)
    requires part.tag !in e.streams ==> Lookup(e, part.id).None?
    ensures part.tag in Receive(e, part).value.streams
    ensures SameIntent(At(e, part.tag, part.id), Receive(e, part).value.streams[part.tag])
  {
    hide Received, Dead, Forget;
    var sh := if part.tag in e.streams then e.sh else Wake(e.sh, part.tag);
    ReceivedIntent(e.cfg, part.tag, At(e, part.tag, part.id), sh, part);
  }

  lemma ReadIntent(s: Stream)
    ensures SameIntent(s, Called(s, Read))
  {
  }

  lemma StepIntents(s: System, a: Action)
    requires SysInv(s) && Progresses(s, a) && Next(s, a).Ok?
    ensures SameIntents(s, Next(s, a).value)
  {
    match a
    case Calls(x, k, call) =>
      CallIntents(s, x, k);
    case Polls(x, k, allowance) =>
      PollIntents(s, x, k, allowance);
    case Delivers(x) =>
      DeliverIntents(s, x);
  }

  lemma CallIntents(s: System, x: Role, k: Ref)
    requires k in Side(s, x).streams
    ensures SameIntents(s, WithSide(s, x, Call(Side(s, x), k, Read)))
  {
    hide Called, CallWakes;
    ReadIntent(Side(s, x).streams[k]);
  }

  lemma PollIntents(s: System, x: Role, k: Ref, allowance: nat)
    requires SysInv(s) && k in Side(s, x).sh.awake
    ensures k in Side(s, x).tasks && k in Side(s, x).streams
    ensures SameIntents(s, Polled(s, x, k, allowance))
  {
    hide SysInv, Poll, Dead, StreamFin, SameIntent;
    AwakeFacts(s, x, k);
    PollShape(Side(s, x), k, allowance);
    PollIntent(Side(s, x), k, allowance);
    IntentRefl();
  }

  lemma DeliverIntents(s: System, x: Role)
    requires SysInv(s) && Chan(s, x) != []
    ensures Receive(Side(s, x.Peer()), Chan(s, x)[0]).Ok?
    ensures SameIntents(s, Delivered(s, x))
  {
    hide SysInv, LocalInv, Receive, Dead, DuplexInv, PartsOf;
    Accepted(s, x);
    FindsStream(s, x);
    ReceiveIntent(Side(s, x.Peer()), Chan(s, x)[0]);
  }

  lemma IntentRefl()
    ensures forall a: Stream :: SameIntent(a, a)
  {
  }

  lemma {:induction false} RunIntents(s: System, actions: seq<Action>)
    requires SysInv(s) && ProgressRun(s, actions)
    ensures Run(s, actions).Ok? && SameIntents(s, Run(s, actions).value)
    decreases |actions|
  {
    hide SysInv, Next, Progresses, At;
    if actions != [] {
      Step(s, actions[0]);
      StepIntents(s, actions[0]);
      RunIntents(Next(s, actions[0]).value, actions[1..]);
    }
  }

  /**
   * Everything arrives. From any state of any run, let tasks run, frames arrive and readers read, in any order,
   * until no such step is possible. Then every reader that had not stopped reading has read exactly what was written.
   * No such sequence of steps is longer than the rank of the state it started from.
   */
  lemma EverythingArrives(client: Config, server: Config, actions: seq<Action>, s: System, steps: seq<Action>, x: Role, k: Ref)
    requires Reaches(client, server, actions, s) && ProgressRun(s, steps) && k < |s.ids|
    ensures |steps| <= Rank(s)
    ensures Run(s, steps).Ok?
    ensures var t := Run(s, steps).value;
            (forall a: Action :: !Progresses(t, a)) ==>
              && Quiet(t) && t.ids == s.ids
              && (!At(Side(s, x.Peer()), k, s.ids[k]).inn.quit ==>
                    At(Side(t, x.Peer()), k, s.ids[k]).inn.taken == At(Side(s, x), k, s.ids[k]).out.accepted)
  {
    hide SysInv, Run, Rank, Progresses, Quiet, At, ProgressRun;
    NoViolation(client, server, actions);
    DrainingTerminates(s, steps);
    RunIntents(s, steps);
    var t := Run(s, steps).value;
    if forall a: Action :: !Progresses(t, a) {
      StuckIsQuiet(t);
      QuietPipe(t, x, k);
      assert SameIntent(At(Side(s, x), k, s.ids[k]), At(Side(t, x), k, s.ids[k]));
      assert SameIntent(At(Side(s, x.Peer()), k, s.ids[k]), At(Side(t, x.Peer()), k, s.ids[k]));
    }
  }
}
