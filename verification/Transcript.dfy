/** What the applications of two joined sides said and were told, and that it fits together. */
module Transcript {
  import opened Prelude
  import opened Fins
  import opened StreamId
  import opened Endpoint
  import opened Local
  import opened System
  import opened Renaming
  import opened Joined
  import opened History
  import opened Observed
  import Inbound
  import Direction
  import Delivery
  import Safety
  import Wakeups
  import Pools
  import Tables

  /** One call, and what it returned. */
  datatype Said = Said(role: Role, k: Ref, call: AppCall, answer: Answer)

  /** What was noted of the calls for one stream. */
  function Noticed(t: seq<Said>, role: Role, k: Ref): Log {
    if t == [] then Blank(0)
    else
      var (l, last) := (Noticed(t[..|t| - 1], role, k), t[|t| - 1]);
      if last.role == role && last.k == k then Noted(l, last.call, last.answer) else l
  }

  // The transcript of a run.

  function SaysAt(p: Pair, a: Action): seq<Said> {
    if a.Calls? && a.k in EndOf(p, a.role).e.streams
    then [Said(a.role, a.k, a.call, AnswerTo(EndOf(p, a.role).e.streams[a.k], a.call))] else []
  }

  function Says(p: Pair, actions: seq<Action>): seq<Said>
    decreases |actions|
  {
    if actions == [] || PairNext(p, actions[0]).Err? then []
    else SaysAt(p, actions[0]) + Says(PairNext(p, actions[0]).value, actions[1..])
  }

  lemma {:induction false} SaysMore(p: Pair, a: seq<Action>, b: seq<Action>)
    requires PairRun(p, a).Ok?
    ensures Says(p, a + b) == Says(p, a) + Says(PairRun(p, a).value, b)
    decreases |a|
  {
    hide PairNext, SaysAt;
    if a == [] {
      assert a + b == b;
    } else {
      var p' := PairNext(p, a[0]).value;
      SaysMore(p', a[1..], b);
      assert (a + b)[1..] == a[1..] + b && (a + b)[0] == a[0];
      var (first, rest, more) := (SaysAt(p, a[0]), Says(p', a[1..]), Says(PairRun(p', a[1..]).value, b));
      assert first + (rest + more) == first + rest + more;
    }
  }

  /** Nothing is said without a call. */
  lemma {:induction false} NothingSaid(p: Pair, actions: seq<Action>)
    requires forall i | 0 <= i < |actions| :: !actions[i].Calls?
    ensures Says(p, actions) == []
    decreases |actions|
  {
    hide PairNext;
    if actions != [] && PairNext(p, actions[0]).Ok? {
      NothingSaid(PairNext(p, actions[0]).value, actions[1..]);
    }
  }

  lemma SaysOne(p: Pair, a: Action)
    requires PairNext(p, a).Ok?
    ensures Says(p, [a]) == SaysAt(p, a)
  {
    hide PairNext, SaysAt;
    assert Says(PairNext(p, a).value, [a][1..]) == [];
  }

  // The transcript and the logs.

  ghost predicate SameWords(a: Log, b: Log) {
    a.wrote == b.wrote && a.read == b.read && a.ended == b.ended && a.stopped == b.stopped
  }

  /** The logs of one side say what the transcript says. */
  ghost predicate Knows(x: End, logs: Logs, t: seq<Said>, role: Role) {
    SideInv(x.e, x.next) && Remembers(x.e, logs) && forall k: Ref :: SameWords(LogOf(logs, k, 0), Noticed(t, role, k))
  }

  ghost predicate BothKnow(p: Pair, v: Views, t: seq<Said>) {
    Knows(p.client, v.client, t, Client) && Knows(p.server, v.server, t, Server)
  }

  lemma KnowsBoth(p: Pair, v: Views, t: seq<Said>, role: Role)
    requires BothKnow(p, v, t)
    ensures Knows(EndOf(p, role), LogsAt(v, role), t, role) && Knows(EndOf(p, role.Peer()), LogsAt(v, role.Peer()), t, role.Peer())
  {
    hide Knows;
  }

  /** What one operation of a side adds to the transcript. */
  function SaysDoing(x: End, role: Role, op: Op): seq<Said> {
    if op.Calls? && op.k in x.e.streams then [Said(role, op.k, op.call, AnswerTo(x.e.streams[op.k], op.call))] else []
  }

  lemma NoticedMore(t: seq<Said>, said: Said, role: Role, k: Ref)
    ensures Noticed(t + [said], role, k)
            == if said.role == role && said.k == k then Noted(Noticed(t, role, k), said.call, said.answer) else Noticed(t, role, k)
  {
    assert (t + [said])[..|t|] == t;
  }

  lemma OthersNotice(x: End, logs: Logs, t: seq<Said>, role: Role, said: seq<Said>)
    requires Knows(x, logs, t, role) && |said| <= 1 && forall i | 0 <= i < |said| :: said[i].role != role
    ensures Knows(x, logs, t + said, role)
  {
    hide SideInv, Remembers;
    if said == [] {
      assert t + said == t;
    } else {
      assert said == [said[0]];
      forall k: Ref ensures Noticed(t + said, role, k) == Noticed(t, role, k) {
        NoticedMore(t, said[0], role, k);
      }
    }
  }

  lemma DoingKnows(x: End, logs: Logs, t: seq<Said>, role: Role, op: Op)
    requires Knows(x, logs, t, role) && Do(x.e, x.next, op).Ok?
    ensures var (e, n) := Do(x.e, x.next, op).value;
            Knows(End(e, n), History.Observed(x.e, x.next, logs, op), t + SaysDoing(x, role, op), role)
  {
    hide SideInv, Remembers, Do, Noticed, History.Observed, AnswerTo;
    DoKeeps(x.e, x.next, op);
    DoRemembers(x.e, x.next, logs, op);
    forall k: Ref ensures SameWords(LogOf(History.Observed(x.e, x.next, logs, op), k, 0), Noticed(t + SaysDoing(x, role, op), role, k)) {
      DoingNoticed(x, logs, t, role, op, k);
    }
  }

  lemma DoingNoticed(x: End, logs: Logs, t: seq<Said>, role: Role, op: Op, k: Ref)
    requires Knows(x, logs, t, role)
    ensures SameWords(LogOf(History.Observed(x.e, x.next, logs, op), k, 0), Noticed(t + SaysDoing(x, role, op), role, k))
  {
    hide SideInv, Remembers, Noticed, History.Observed, AnswerTo, LogOf;
    if op.Calls? && op.k in x.e.streams {
      NoticedMore(t, SaysDoing(x, role, op)[0], role, k);
      CallNoticed(x, logs, op.k, op.call, k);
      assert SameWords(LogOf(logs, op.k, 0), Noticed(t, role, op.k));
    } else {
      assert t + [] == t;
      NotNoticed(x, logs, op, k);
    }
  }

  lemma CallNoticed(x: End, logs: Logs, k: Ref, call: AppCall, j: Ref)
    requires Remembers(x.e, logs) && k in x.e.streams
    ensures var logs' := History.Observed(x.e, x.next, logs, Op.Calls(k, call));
            LogOf(logs', j, 0) == if j == k then Noted(LogOf(logs, k, 0), call, AnswerTo(x.e.streams[k], call)) else LogOf(logs, j, 0)
  {
    hide Tells, AnswerTo;
  }

  lemma NotNoticed(x: End, logs: Logs, op: Op, j: Ref)
    requires Remembers(x.e, logs) && SideInv(x.e, x.next) && !(op.Calls? && op.k in x.e.streams)
    ensures SameWords(LogOf(History.Observed(x.e, x.next, logs, op), j, 0), LogOf(logs, j, 0))
  {
    hide Tells, SideInv, Poll, OpenOutbound, IsVacantKey, Lookup;
    NextIsNew(x);
  }

  lemma NextIsNew(x: End)
    requires SideInv(x.e, x.next)
    ensures x.next !in x.e.streams
  {
    hide Wakeups.WakeInv, Tables.TableInv, StreamsOk;
  }

  lemma StartKnows(client: Config, server: Config)
    requires ConfigsMatch(client, server) && ConfigsMatch(server, client)
    ensures BothKnow(StartPair(client, server), NO_VIEWS, [])
  {
    hide SideInv;
    NewSide(Client, client);
    NewSide(Server, server);
    NothingYet(Client, client);
    NothingYet(Server, server);
  }

  /** One action of a pair is an operation of one side. */
  function OpOf(p: Pair, a: Action): Op
    requires a.Delivers? ==> ChanOf(p, a.role) != []
  {
    match a
    case Opens(_, key) => Op.Opens(key)
    case Calls(_, k, call) => Op.Calls(k, call)
    case Polls(_, k, allowance) => Op.Polls(k, allowance)
    case Delivers(role) => Receives(ChanOf(p, role)[0])
  }

  lemma StepKnows(p: Pair, v: Views, t: seq<Said>, a: Action) returns (v': Views)
    requires BothKnow(p, v, t) && PairNext(p, a).Ok?
    ensures BothKnow(PairNext(p, a).value, v', t + SaysAt(p, a))
  {
    hide Knows, Do, AnswerTo, Puts;
    var role := if a.Delivers? then a.role.Peer() else a.role;
    KnowsBoth(p, v, t, role);
    if a.Delivers? && ChanOf(p, a.role) == [] {
      v' := v;
      assert t + [] == t;
    } else {
      var (x, logs, op) := (EndOf(p, role), LogsAt(v, role), OpOf(p, a));
      DoingKnows(x, logs, t, role, op);
      OthersNotice(EndOf(p, role.Peer()), LogsAt(v, role.Peer()), t, role.Peer(), SaysAt(p, a));
      v' := WithLogs(v, role, History.Observed(x.e, x.next, logs, op));
    }
  }

  lemma {:induction false} RunKnows(p: Pair, v: Views, t: seq<Said>, actions: seq<Action>) returns (v': Views)
    requires BothKnow(p, v, t) && PairRun(p, actions).Ok?
    ensures BothKnow(PairRun(p, actions).value, v', t + Says(p, actions))
    decreases |actions|
  {
    hide BothKnow, PairNext, SaysAt;
    if actions == [] {
      assert t + [] == t;
      v' := v;
    } else {
      var v1 := StepKnows(p, v, t, actions[0]);
      var p1 := PairNext(p, actions[0]).value;
      v' := RunKnows(p1, v1, t + SaysAt(p, actions[0]), actions[1..]);
      assert t + (SaysAt(p, actions[0]) + Says(p1, actions[1..])) == t + SaysAt(p, actions[0]) + Says(p1, actions[1..]);
    }
  }

  // What one side hears is what the other side said.

  /** From the side `x` to its peer, in the two streams that `m` names. */
  ghost predicate Hears(p: Pair, t: seq<Said>, names: Names, x: Role, m: Ref)
    requires m in NamesOf(names, x) && m in NamesOf(names, x.Peer())
  {
    var (k, j) := (NamesOf(names, x)[m], NamesOf(names, x.Peer())[m]);
    var (here, there) := (EndOf(p, x).e.streams, EndOf(p, x.Peer()).e.streams);
    var (said, heard) := (Noticed(t, x, k).wrote, Noticed(t, x.Peer(), j));
    && k in here && j in there && here[k].id == there[j].id
    && Flat(heard.read) <= said
    && (AnswerTo(there[j], Read) == Got(Inbound.End) && !heard.stopped ==> Flat(heard.read) == said)
  }

  /**
   * The streams of the two sides belong together, one to one, and each pair has the same ID. Whoever has read something has
   * a counterpart that wrote it.
   */
  ghost predicate Mates(p: Pair, t: seq<Said>, names: Names) {
    && Injective(names.client) && Injective(names.server)
    && (forall x: Role, m: Ref | m in names.client && m in names.server :: Hears(p, t, names, x, m))
    && (forall x: Role, j: Ref | j in EndOf(p, x).e.streams && Noticed(t, x, j).read != [] ::
          exists m: Ref :: m in names.client && m in names.server && NamesOf(names, x)[m] == j)
  }

  /** A stream under its two names. */
  lemma Mirrored(names: Names, s: System, p: Pair, role: Role, m: Ref)
    requires Simulates(names, s, p) && m in NamesOf(names, role)
    ensures m in Side(s, role).streams && NamesOf(names, role)[m] in EndOf(p, role).e.streams
    ensures EndOf(p, role).e.streams[NamesOf(names, role)[m]] == Side(s, role).streams[m]
    ensures Injective(NamesOf(names, role))
  {
    hide SysInv, SharedSame, SetSame, TableSame, ChanSame;
    BothSides(names, s, p, role);
  }

  /** A side that accepted something has the stream. */
  lemma Unmirrored(names: Names, s: System, p: Pair, role: Role, m: Ref)
    requires Simulates(names, s, p) && m < |s.ids| && At(Side(s, role), m, s.ids[m]).out.accepted != []
    ensures m in NamesOf(names, role)
  {
    hide SysInv, SharedSame, SetSame, TableSame, ChanSame;
    BothSides(names, s, p, role);
  }

  /** The transcript and the history of a stream agree. */
  lemma Recalls(p: Pair, v: Views, t: seq<Said>, role: Role, k: Ref)
    requires BothKnow(p, v, t) && k in EndOf(p, role).e.streams
    ensures var (l, st) := (Noticed(t, role, k), EndOf(p, role).e.streams[k]);
            l.wrote == st.out.accepted && Flat(l.read) == st.inn.taken && (st.inn.quit ==> l.stopped)
    ensures EndOf(p, role).e.streams[k].inn.taken == [] ==> Noticed(t, role, k).read == []
  {
    hide SideInv, Noticed;
    KnowsBoth(p, v, t, role);
    var (logs, e) := (LogsAt(v, role), EndOf(p, role).e);
    assert SameWords(LogOf(logs, k, 0), Noticed(t, role, k));
    assert Tells(logs[k], e.streams[k], e.role);
    NoEmptyReads(logs[k]);
  }

  lemma NoEmptyReads(l: Log)
    requires l.read <= ChunksIn(l.got)
    ensures Flat(l.read) == [] ==> l.read == []
  {
    if l.read != [] {
      NoEmptyChunks(l.got);
      assert l.read[0] in ChunksIn(l.got);
    }
  }

  lemma {:induction false} NoEmptyChunks(ps: seq<Part>)
    ensures forall c | c in ChunksIn(ps) :: c != []
  {
    if ps != [] {
      NoEmptyChunks(ps[..|ps| - 1]);
    }
  }

  /** In a run of the system, what a stream took is a prefix of what its counterpart accepted, and all of it at the end. */
  lemma TakesWhatWasAccepted(client: Config, server: Config, actions: seq<Action>, s: System, x: Role, k: Ref)
    requires Delivery.Reaches(client, server, actions, s) && k < |s.ids|
    ensures var (o, i) := (At(Side(s, x), k, s.ids[k]).out, At(Side(s, x.Peer()), k, s.ids[k]).inn);
            i.taken <= o.accepted && (i.state.Closed? && !i.quit ==> i.taken == o.accepted)
  {
    hide SysInv, Run, SeenAll, Start, At, Flat, LogAt, ReaderClosed, WriterClosed, Delivery.Quiet, Watched, ChunksIn;
    var v := SeenAll(Start(client, server), NO_VIEWS, actions);
    ShowsWatched(client, server, actions, s, v);
    ReadsWhatWasWritten(client, server, actions, s, v, x, k);
    AgreesAt(s, v, x, k, s.ids[k]);
    AgreesAt(s, v, x.Peer(), k, s.ids[k]);
    AtTheEnd(client, server, actions, s, x, k);
  }

  lemma SameId(s: System, x: Role, k: Ref)
    requires SysInv(s) && k in Side(s, x).streams
    ensures k < |s.ids| && Side(s, x).streams[k].id == s.ids[k]
  {
    hide SysInv, PartsOf;
    Safety.KeysBelow(s, x, k);
    Safety.Facts(s, x, k);
  }

  lemma HearsAll(client: Config, server: Config, p: Pair, v: Views, t: seq<Said>, steps: seq<Action>, s: System, names: Names, x: Role, m: Ref)
    requires ConfigsMatch(client, server) && ConfigsMatch(server, client)
    requires Mirrors(client, server, p, steps, s, names) && BothKnow(p, v, t)
    requires m in names.client && m in names.server
    ensures Hears(p, t, names, x, m)
  {
    hide SysInv, Run, Start, SideSame, BothKnow, Noticed, ConfigsMatch;
    Mirrored(names, s, p, x, m);
    Mirrored(names, s, p, x.Peer(), m);
    SameId(s, x, m);
    SameId(s, x.Peer(), m);
    TakesWhatWasAccepted(client, server, steps, s, x, m);
    Recalls(p, v, t, x, NamesOf(names, x)[m]);
    Recalls(p, v, t, x.Peer(), NamesOf(names, x.Peer())[m]);
  }

  lemma HasCounterpart(client: Config, server: Config, p: Pair, v: Views, t: seq<Said>, steps: seq<Action>, s: System, names: Names,
                       x: Role, j: Ref) returns (m: Ref)
    requires ConfigsMatch(client, server) && ConfigsMatch(server, client)
    requires Mirrors(client, server, p, steps, s, names) && BothKnow(p, v, t)
    requires j in EndOf(p, x).e.streams && Noticed(t, x, j).read != []
    ensures m in names.client && m in names.server && NamesOf(names, x)[m] == j
  {
    hide SysInv, Run, Start, BothKnow, Noticed, ConfigsMatch, SharedSame, SetSame, TableSame, ChanSame;
    BothSides(names, s, p, x);
    m := OldName(NamesOf(names, x), Side(s, x), EndOf(p, x), j);
    Mirrored(names, s, p, x, m);
    SameId(s, x, m);
    Recalls(p, v, t, x, j);
    TakesWhatWasAccepted(client, server, steps, s, x.Peer(), m);
    Unmirrored(names, s, p, x.Peer(), m);
  }

  /**
   * Two sides with their own names for the streams, in any run: whatever an application reads is what the application at the
   * other end wrote into the stream with this ID, in order, and all of it once it sees the end and did not stop before.
   */
  lemma HeardWasSaid(client: Config, server: Config, actions: seq<Action>)
    requires ConfigsMatch(client, server) && ConfigsMatch(server, client)
    ensures PairRun(StartPair(client, server), actions).Ok?
    ensures exists names: Names ::
              Mates(PairRun(StartPair(client, server), actions).value, Says(StartPair(client, server), actions), names)
  {
    hide SysInv, Run, PairRun, Says, StartPair, BothKnow, Mirrors, Noticed, Hears, ConfigsMatch;
    JoinedNeverFail(client, server, actions);
    StartKnows(client, server);
    var (start, t) := (StartPair(client, server), Says(StartPair(client, server), actions));
    var p := PairRun(start, actions).value;
    var steps, s, names :| Mirrors(client, server, p, steps, s, names);
    var v := RunKnows(start, NO_VIEWS, [], actions);
    assert [] + t == t;
    MatesAll(client, server, p, v, t, steps, s, names);
  }

  lemma MatesAll(client: Config, server: Config, p: Pair, v: Views, t: seq<Said>, steps: seq<Action>, s: System, names: Names)
    requires ConfigsMatch(client, server) && ConfigsMatch(server, client)
    requires Mirrors(client, server, p, steps, s, names) && BothKnow(p, v, t)
    ensures Mates(p, t, names)
  {
    hide SysInv, Run, Start, BothKnow, Noticed, Hears, ConfigsMatch, SharedSame, SetSame, TableSame, ChanSame;
    BothSides(names, s, p, Client);
    forall x: Role, m: Ref | m in names.client && m in names.server ensures Hears(p, t, names, x, m) {
      HearsAll(client, server, p, v, t, steps, s, names, x, m);
    }
    forall x: Role, j: Ref | j in EndOf(p, x).e.streams && Noticed(t, x, j).read != []
      ensures exists m: Ref :: m in names.client && m in names.server && NamesOf(names, x)[m] == j
    {
      var m := HasCounterpart(client, server, p, v, t, steps, s, names, x, j);
    }
  }
}
