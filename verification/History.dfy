/**
 * What can be observed of a stream from outside of its side: what the application did with it and was told, and which
 * parts it sent and got. That determines what is inside, and so what every operation has to answer.
 */
module History {
  import opened Prelude
  import opened StreamId
  import opened SharedFlow
  import opened Endpoint
  import opened Local
  import Direction
  import Outbound
  import Inbound
  import Wakeups
  import Pools
  import Tables

  /**
   * One stream. `wrote` is what accepted writes passed in, `read` the chunks that reads returned, `ended` and `stopped`
   * whether the application closed its writer and its reader.
   */
  datatype Log = Log(id: Id, wrote: Bytes, read: seq<Bytes>, ended: bool, stopped: bool, sent: seq<Part>, got: seq<Part>)

  type Logs = map<Ref, Log>

  function Blank(id: Id): Log {
    Log(id, [], [], false, false, [], [])
  }

  // What a sequence of parts says.

  function DataIn(ps: seq<Part>): Bytes {
    if ps == [] then [] else DataIn(ps[..|ps| - 1]) + ps[|ps| - 1].data
  }

  /** The data, frame by frame. */
  function ChunksIn(ps: seq<Part>): seq<Bytes> {
    if ps == [] then []
    else
      var data := ps[|ps| - 1].data;
      ChunksIn(ps[..|ps| - 1]) + if data == [] then [] else [data]
  }

  function CreditIn(ps: seq<Part>): nat {
    if ps == [] then 0 else CreditIn(ps[..|ps| - 1]) + ps[|ps| - 1].credit
  }

  predicate FinWriteIn(ps: seq<Part>) {
    exists i | 0 <= i < |ps| :: ps[i].finWrite
  }

  predicate FinReadIn(ps: seq<Part>) {
    exists i | 0 <= i < |ps| :: ps[i].finRead
  }

  lemma OneMore(ps: seq<Part>, p: Part)
    ensures DataIn(ps + [p]) == DataIn(ps) + p.data
    ensures ChunksIn(ps + [p]) == ChunksIn(ps) + if p.data == [] then [] else [p.data]
    ensures CreditIn(ps + [p]) == CreditIn(ps) + p.credit
    ensures FinWriteIn(ps + [p]) <==> FinWriteIn(ps) || p.finWrite
    ensures FinReadIn(ps + [p]) <==> FinReadIn(ps) || p.finRead
  {
    var more := ps + [p];
    assert more[..|ps|] == ps && more[|ps|] == p;
    assert forall i | 0 <= i < |ps| :: more[i] == ps[i];
  }

  lemma {:induction false} FlatChunks(ps: seq<Part>)
    ensures Flat(ChunksIn(ps)) == DataIn(ps)
  {
    if ps != [] {
      var (rest, data) := (ps[..|ps| - 1], ps[|ps| - 1].data);
      FlatChunks(rest);
      if data != [] {
        FlatAppend(ChunksIn(rest), data);
      } else {
        assert ChunksIn(ps) == ChunksIn(rest) && DataIn(rest) + data == DataIn(rest);
      }
    }
  }

  // The state of a stream, from its log.

  /** Both sides are done with both directions. */
  predicate Finished(l: Log) {
    FinReadIn(l.sent) && FinWriteIn(l.sent) && FinReadIn(l.got) && FinWriteIn(l.got)
  }

  /** Sent, and not credited. */
  function InFlight(l: Log): int {
    if FinReadIn(l.got) then 0 else |DataIn(l.sent)| - CreditIn(l.got)
  }

  /** Received, and not credited. */
  function Uncredited(l: Log): int {
    if FinReadIn(l.sent) then 0 else |DataIn(l.got)| - CreditIn(l.sent)
  }

  /** Read, and not credited. */
  function DueCredit(l: Log): int {
    if FinReadIn(l.sent) then 0 else |Flat(l.read)| - CreditIn(l.sent)
  }

  /** The application can write no more. */
  predicate WriterClosed(l: Log) {
    l.ended || FinReadIn(l.got)
  }

  /** The application can read no more. */
  predicate ReaderClosed(l: Log) {
    l.stopped || (FinWriteIn(l.got) && l.read == ChunksIn(l.got))
  }

  ghost predicate OutTells(l: Log, o: Outbound.Out) {
    && o.accepted == l.wrote && o.unacked == InFlight(l)
    && Outbound.FinWriteSent(o) == FinWriteIn(l.sent) && Outbound.FinReadReceived(o) == FinReadIn(l.got)
    && o.state.Open? == !WriterClosed(l)
    && DataIn(l.sent) <= l.wrote
    && (!FinReadIn(l.got) ==> l.wrote == DataIn(l.sent) + Outbound.Waiting(o))
  }

  ghost predicate InTells(l: Log, i: Inbound.In) {
    && i.taken == Flat(l.read) && i.unacked == Uncredited(l) && i.credit == DueCredit(l)
    && Inbound.FinReadSent(i) == FinReadIn(l.sent) && Inbound.FinWriteReceived(i) == FinWriteIn(l.got)
    && i.state.Closed? == ReaderClosed(l)
    && (i.state.Open? ==> !l.stopped && !FinWriteIn(l.got))
    && l.read <= ChunksIn(l.got)
    && (!i.state.Closed? ==> l.read + i.state.ready == ChunksIn(l.got))
    && (i.quit ==> l.stopped)
  }

  /** All parts are for this stream. `SYN` is in the first part of the side that started it, and nowhere else. */
  ghost predicate SynTells(l: Log, s: Stream, role: Role) {
    && l.id == s.id
    && s.syn == (InitiatedBy(l.id) == role && l.sent == [])
    && (forall i | 0 <= i < |l.sent| :: l.sent[i].id == l.id && l.sent[i].syn == (InitiatedBy(l.id) == role && i == 0))
    && (forall i | 0 <= i < |l.got| :: l.got[i].id == l.id && l.got[i].syn == (InitiatedBy(l.id) != role && i == 0))
  }

  ghost predicate Tells(l: Log, s: Stream, role: Role) {
    OutTells(l, s.out) && InTells(l, s.inn) && SynTells(l, s, role)
  }

  /** A stream that the peer started has got something. */
  ghost predicate Started(l: Log, role: Role) {
    InitiatedBy(l.id) != role ==> l.got != []
  }

  ghost predicate Remembers(e: Endpoint, logs: Logs) {
    logs.Keys == e.streams.Keys && forall k | k in logs :: Tells(logs[k], e.streams[k], e.role) && Started(logs[k], e.role)
  }

  // Calls of the application.

  /** What is noted of a call: only what the application passed in and was told. */
  function Noted(l: Log, call: AppCall, answer: Answer): Log {
    match call
    case Write(data) => if answer == Wrote(Outbound.Accepted) then l.(wrote := l.wrote + data) else l
    case Read => if answer.Got? && answer.read.Data? then l.(read := l.read + [answer.read.chunk]) else l
    case CloseWriting => l.(ended := true)
    case CloseReading => l.(stopped := true)
  }

  lemma WriteTells(l: Log, o: Outbound.Out, data: Bytes)
    requires OutTells(l, o)
    ensures OutTells(Noted(l, Write(data), Wrote(Outbound.Write(o, data).1)), Outbound.Write(o, data).0)
  {
    if Outbound.Write(o, data).1.Accepted? {
      assert DataIn(l.sent) + Outbound.Waiting(o) == DataIn(l.sent);
    }
  }

  lemma CloseWritingTells(l: Log, o: Outbound.Out)
    requires OutTells(l, o)
    ensures OutTells(l.(ended := true), Outbound.CloseWriting(o))
  {
  }

  lemma ReadTells(l: Log, i: Inbound.In)
    requires InTells(l, i) && Direction.InOk(i)
    ensures InTells(Noted(l, Read, Got(Inbound.Read(i).1)), Inbound.Read(i).0)
  {
    var (i', r) := Inbound.Read(i);
    if r.Data? {
      var ready := i.state.ready;
      FlatAppend(l.read, ready[0]);
      assert l.read + [ready[0]] + ready[1..] == l.read + ready;
      if i'.state.Closed? {
        assert l.read + [ready[0]] == l.read + ready;
      }
    }
  }

  lemma CloseReadingTells(l: Log, i: Inbound.In)
    requires InTells(l, i)
    ensures InTells(l.(stopped := true), Inbound.CloseReading(i))
  {
  }

  lemma CalledTells(l: Log, s: Stream, role: Role, call: AppCall)
    requires Tells(l, s, role) && StreamOk(s)
    ensures Tells(Noted(l, call, AnswerTo(s, call)), Called(s, call), role)
  {
    hide OutTells, InTells, Outbound.Write, Outbound.CloseWriting, Inbound.Read, Inbound.CloseReading, Direction.InOk, Direction.OutOk;
    match call
    case Write(data) =>
      WriteTells(l, s.out, data);
      SameIn(l, Noted(l, call, AnswerTo(s, call)), s.inn);
    case CloseWriting =>
      CloseWritingTells(l, s.out);
      SameIn(l, l.(ended := true), s.inn);
    case Read =>
      ReadTells(l, s.inn);
      SameOut(l, Noted(l, call, AnswerTo(s, call)), s.out);
    case CloseReading =>
      CloseReadingTells(l, s.inn);
      SameOut(l, l.(stopped := true), s.out);
  }

  lemma SameOut(l: Log, l': Log, o: Outbound.Out)
    requires OutTells(l, o) && l' == l.(read := l'.read, stopped := l'.stopped)
    ensures OutTells(l', o)
  {
  }

  lemma SameIn(l: Log, l': Log, i: Inbound.In)
    requires InTells(l, i) && l' == l.(wrote := l'.wrote, ended := l'.ended)
    ensures InTells(l', i)
  {
  }

  // Polling.

  lemma PollInTells(l: Log, i: Inbound.In, sh: Shared, base: nat, threshold: nat, part: Part)
    requires InTells(l, i) && Direction.InOk(i) && threshold >= 1
    requires var c := Inbound.PollIn(i, sh, base, threshold).sent;
             part.credit == (if c.Some? then c.value.amount else 0) && part.finRead == (c.Some? && c.value.fin)
    ensures InTells(l.(sent := l.sent + [part]), Inbound.PollIn(i, sh, base, threshold).i)
  {
    hide Direction.InOk, Flat, ChunksIn, DataIn, CreditIn, FinReadIn, FinWriteIn, Inbound.Counted;
    OneMore(l.sent, part);
    CreditFits(i);
  }

  lemma CreditFits(i: Inbound.In)
    requires Direction.InOk(i)
    ensures i.credit <= i.unacked
  {
  }

  lemma PollOutTells(l: Log, me: Ref, o: Outbound.Out, sh: Shared, base: nat, limit: nat, allowance: nat, part: Part)
    requires OutTells(l, o) && Direction.OutOk(o)
    requires var c := Outbound.PollOut(me, o, sh, base, limit, allowance).sent;
             part.data == (if c.Some? then c.value.data else []) && part.finWrite == (c.Some? && c.value.fin)
    ensures OutTells(l.(sent := l.sent + [part]), Outbound.PollOut(me, o, sh, base, limit, allowance).o)
  {
    hide Direction.OutOk, Flat, DataIn, CreditIn, FinReadIn, FinWriteIn, Outbound.PollOut;
    Direction.PollOutSends(o, me, sh, base, limit, allowance);
    PollOutStaysOpen(o, me, sh, base, limit, allowance);
    OneMore(l.sent, part);
    var p := Outbound.PollOut(me, o, sh, base, limit, allowance);
    assert DataIn(l.sent) + part.data + Outbound.Waiting(p.o) == DataIn(l.sent) + (part.data + Outbound.Waiting(p.o));
    assert p.sent.None? ==> DataIn(l.sent) + part.data == DataIn(l.sent);
    assert FinReadIn(l.got) ==> part.data == [] && DataIn(l.sent) + part.data == DataIn(l.sent);
  }

  lemma PollOutStaysOpen(o: Outbound.Out, me: Ref, sh: Shared, base: nat, limit: nat, allowance: nat)
    ensures var p := Outbound.PollOut(me, o, sh, base, limit, allowance);
            p.o.state.Open? == o.state.Open? && (o.state.Closed? && p.sent.Some? ==> p.sent.value.data == [])
  {
    hide Outbound.Plan;
  }

  function SentNoted(logs: Logs, k: Ref, part: Option<Part>): Logs {
    if part.Some? && k in logs then logs[k := logs[k].(sent := logs[k].sent + [part.value])] else logs
  }

  /** Only one stream and its log change. */
  lemma OneLog(e: Endpoint, logs: Logs, k: Ref, e': Endpoint, l: Log)
    requires Remembers(e, logs) && k in e'.streams && e'.streams == e.streams[k := e'.streams[k]] && e'.role == e.role
    requires Tells(l, e'.streams[k], e.role) && Started(l, e.role)
    ensures Remembers(e', logs[k := l])
  {
    hide Tells;
  }

  lemma SameLog(e: Endpoint, logs: Logs, k: Ref, e': Endpoint)
    requires Remembers(e, logs) && k in e.streams && k in e'.streams && e'.streams == e.streams[k := e'.streams[k]]
    requires e'.role == e.role && e'.streams[k] == e.streams[k]
    ensures Remembers(e', logs)
  {
    hide Tells;
    OneLog(e, logs, k, e', logs[k]);
    assert logs[k := logs[k]] == logs;
  }

  lemma PollRemembers(e: Endpoint, logs: Logs, k: Ref, allowance: nat)
    requires Remembers(e, logs) && k in e.streams && StreamOk(e.streams[k])
    ensures Remembers(Poll(e, k, allowance).0, SentNoted(logs, k, Poll(e, k, allowance).1))
  {
    hide Tells, Poll, StreamOk;
    var (e', part) := Poll(e, k, allowance);
    PollChanges(e, k, allowance);
    if part.Some? {
      PolledTells(e, logs[k], k, allowance);
      OneLog(e, logs, k, e', logs[k].(sent := logs[k].sent + [part.value]));
    } else {
      SameLog(e, logs, k, e');
    }
  }

  /** What a poll does to the streams. */
  lemma PollChanges(e: Endpoint, k: Ref, allowance: nat)
    requires k in e.streams && StreamOk(e.streams[k])
    ensures var (e', part) := Poll(e, k, allowance);
            && e'.role == e.role && k in e'.streams && e'.streams == e.streams[k := e'.streams[k]]
            && (part.None? ==> e'.streams[k] == e.streams[k])
  {
    hide Inbound.PollIn, Outbound.PollOut, PassTurn, Forget, StreamFin, Direction.OutOk, Direction.InOk;
    var s := e.streams[k];
    var sh := e.sh.(awake := e.sh.awake - {k});
    var ip := Inbound.PollIn(s.inn, sh, e.cfg.localWindow, Threshold(e));
    Direction.PollOutSends(s.out, k, ip.sh, e.cfg.remoteWindow, e.cfg.frameLimit, allowance);
    PollInNothing(s.inn, sh, e.cfg.localWindow, Threshold(e));
    ForgetStreams(e, s.id);
  }

  lemma PollInNothing(i: Inbound.In, sh: Shared, base: nat, threshold: nat)
    ensures var p := Inbound.PollIn(i, sh, base, threshold); p.sent.None? ==> p.i == i
  {
  }

  lemma ForgetStreams(e: Endpoint, id: Id)
    ensures Forget(e, id).streams == e.streams && Forget(e, id).role == e.role
  {
  }

  lemma PolledTells(e: Endpoint, l: Log, k: Ref, allowance: nat)
    requires k in e.streams && Tells(l, e.streams[k], e.role) && StreamOk(e.streams[k]) && Poll(e, k, allowance).1.Some?
    ensures var (e', part) := Poll(e, k, allowance);
            k in e'.streams && Tells(l.(sent := l.sent + [part.value]), e'.streams[k], e.role)
  {
    hide OutTells, InTells, Inbound.PollIn, Outbound.PollOut, PassTurn, Forget, StreamFin, Direction.OutOk, Direction.InOk;
    var s := e.streams[k];
    var sh := e.sh.(awake := e.sh.awake - {k});
    var part := Poll(e, k, allowance).1.value;
    var ip := Inbound.PollIn(s.inn, sh, e.cfg.localWindow, Threshold(e));
    var l' := l.(sent := l.sent + [part]);
    PollInTells(l, s.inn, sh, e.cfg.localWindow, Threshold(e), part);
    PollOutTells(l, k, s.out, ip.sh, e.cfg.remoteWindow, e.cfg.frameLimit, allowance, part);
    ForgetStreams(e, s.id);
    assert forall i | 0 <= i < |l.sent| :: l'.sent[i] == l.sent[i];
  }

  // Receiving.

  lemma OutReceives(l: Log, cfg: Config, k: Ref, s: Stream, sh: Shared, s1: Stream, sh1: Shared, part: Part)
    requires OutTells(l, s.out)
    requires ArriveWindow(cfg, k, s, sh, part).Ok? && ArriveFinRead(cfg, k, s1, sh1, part).Ok?
    requires s1.out == ArriveWindow(cfg, k, s, sh, part).value.0.out
    ensures OutTells(l.(got := l.got + [part]), ArriveFinRead(cfg, k, s1, sh1, part).value.0.out)
  {
    hide DataIn, CreditIn, FinReadIn, FinWriteIn, Outbound.SetUnacked;
    OneMore(l.got, part);
  }

  lemma InReceives(l: Log, cfg: Config, k: Ref, s: Stream, sh: Shared, part: Part)
    requires InTells(l, s.inn) && Direction.InOk(s.inn)
    requires ArriveData(cfg, s, sh, part).Ok?
    requires var (s1, sh1) := ArriveData(cfg, s, sh, part).value; ArriveFinWrite(k, s1, sh1, part).Ok?
    ensures var (s1, sh1) := ArriveData(cfg, s, sh, part).value;
            InTells(l.(got := l.got + [part]), ArriveFinWrite(k, s1, sh1, part).value.0.inn)
  {
    hide DataIn, CreditIn, FinReadIn, FinWriteIn, Inbound.Counted, Flat, ChunksIn;
    OneMore(l.got, part);
    if s.inn.state.Open? {
      var ready := s.inn.state.ready;
      assert l.read + (ready + [part.data]) == l.read + ready + [part.data];
    }
  }

  lemma ReceivedTells(l: Log, cfg: Config, k: Ref, s: Stream, sh: Shared, part: Part, role: Role)
    requires Tells(l, s, role) && StreamOk(s) && Received(cfg, k, s, sh, part).Ok?
    requires part.id == l.id && part.syn == (InitiatedBy(l.id) != role && l.got == [])
    ensures Tells(l.(got := l.got + [part]), Received(cfg, k, s, sh, part).value.0, role)
  {
    hide OutTells, InTells, Direction.OutOk, Direction.InOk, Outbound.ReceivedWindow, Inbound.ReceivedData,
         Inbound.ReceivedFinWrite, Outbound.ReceivedFinRead;
    var (s1, sh1) := ArriveWindow(cfg, k, s, sh, part).value;
    var (s2, sh2) := ArriveData(cfg, s1, sh1, part).value;
    var (s3, sh3) := ArriveFinWrite(k, s2, sh2, part).value;
    OutReceives(l, cfg, k, s, sh, s3, sh3, part);
    InReceives(l, cfg, k, s1, sh1, part);
    var l' := l.(got := l.got + [part]);
    assert forall i | 0 <= i < |l.got| :: l'.got[i] == l.got[i];
  }

  /** The stream that a part is for. A part that starts a stream names it. */
  function Addressee(e: Endpoint, part: Part): Ref {
    if Lookup(e, part.id).Some? then Lookup(e, part.id).value else part.tag
  }

  function LogOf(logs: Logs, k: Ref, id: Id): Log {
    if k in logs then logs[k] else Blank(id)
  }

  function GotNoted(logs: Logs, k: Ref, part: Part): Logs {
    var l := LogOf(logs, k, part.id);
    logs[k := l.(got := l.got + [part])]
  }

  lemma BlankTells(id: Id, role: Role)
    ensures Tells(Blank(id), NewStream(id, InitiatedBy(id) == role), role)
  {
  }

  lemma ReceiveRemembers(e: Endpoint, logs: Logs, part: Part)
    requires Remembers(e, logs) && StreamsOk(e) && Receive(e, part).Ok? && Tables.TableInv(e)
    requires Lookup(e, part.id).None? ==> part.tag !in e.streams
    ensures Remembers(Receive(e, part).value, GotNoted(logs, Addressee(e, part), part))
  {
    hide Tells, Handled, StreamOk, Lookup;
    var k := Addressee(e, part);
    var (e', l) := (Receive(e, part).value, LogOf(logs, k, part.id));
    AddresseeFits(e, logs, part);
    if Lookup(e, part.id).Some? {
      HandledTells(e, l, k, part);
    } else {
      BlankTells(part.id, e.role);
      NewStreamOk(part.id, false);
      HandledTells(Created(e, k, NewStream(part.id, false)).(inbound := e.inbound[part.id := k]), l, k, part);
    }
    OneLog(e, logs, k, e', l.(got := l.got + [part]));
  }

  lemma AddresseeFits(e: Endpoint, logs: Logs, part: Part)
    requires Remembers(e, logs) && Receive(e, part).Ok? && Tables.TableInv(e)
    ensures Lookup(e, part.id).Some? ==> Lookup(e, part.id).value in e.streams && logs[Lookup(e, part.id).value].id == part.id
    ensures Lookup(e, part.id).Some? ==> !part.syn && Started(logs[Lookup(e, part.id).value], e.role)
    ensures Lookup(e, part.id).None? ==> part.syn && InitiatedBy(part.id) != e.role
  {
    hide OutTells, InTells, Handled, Dead, Tables.Limits;
    if Lookup(e, part.id).Some? {
      assert Tells(logs[Lookup(e, part.id).value], e.streams[Lookup(e, part.id).value], e.role);
    }
  }

  lemma HandledTells(e: Endpoint, l: Log, k: Ref, part: Part)
    requires k in e.streams && Tells(l, e.streams[k], e.role) && StreamOk(e.streams[k]) && Handled(e, k, part).Ok?
    requires part.id == l.id && part.syn == (InitiatedBy(l.id) != e.role && l.got == [])
    ensures var e' := Handled(e, k, part).value;
            && k in e'.streams && e'.streams == e.streams[k := e'.streams[k]] && e'.role == e.role
            && Tells(l.(got := l.got + [part]), e'.streams[k], e.role)
  {
    hide Tells, Received, StreamOk, Dead, Forget;
    ReceivedTells(l, e.cfg, k, e.streams[k], e.sh, part, e.role);
    var (s, sh) := Received(e.cfg, k, e.streams[k], e.sh, part).value;
    ForgetStreams(Updated(e, k, s, sh), part.id);
  }

  lemma CallRemembers(e: Endpoint, logs: Logs, k: Ref, call: AppCall)
    requires Remembers(e, logs) && k in e.streams && StreamOk(e.streams[k])
    ensures k in logs && Remembers(Call(e, k, call), logs[k := Noted(logs[k], call, AnswerTo(e.streams[k], call))])
  {
    hide Tells, Called, StreamOk, CallWakes, AnswerTo;
    CalledTells(logs[k], e.streams[k], e.role, call);
    OneLog(e, logs, k, Call(e, k, call), Noted(logs[k], call, AnswerTo(e.streams[k], call)));
  }

  lemma OpenRemembers(e: Endpoint, logs: Logs, key: nat, k: Ref)
    requires Remembers(e, logs) && OpenOutbound(e, key, k).Some?
    ensures Remembers(OpenOutbound(e, key, k).value.0, logs[k := Blank(OpenOutbound(e, key, k).value.1)])
  {
    hide Tells;
    var (e', id) := OpenOutbound(e, key, k).value;
    BlankTells(id, e.role);
    OneLog(e, logs, k, e', Blank(id));
  }

  // Runs of one side.

  /** What an operation adds to the logs. */
  function Observed(e: Endpoint, n: nat, logs: Logs, op: Op): Logs {
    match op
    case Opens(key) =>
      if IsVacantKey(e, key) && OpenOutbound(e, key, n).Some? then logs[n := Blank(OpenOutbound(e, key, n).value.1)] else logs
    case Calls(k, call) =>
      if k in e.streams && k in logs then logs[k := Noted(logs[k], call, AnswerTo(e.streams[k], call))] else logs
    case Polls(k, allowance) =>
      if k in e.tasks && k in e.streams then SentNoted(logs, k, Poll(e, k, allowance).1) else logs
    case Receives(part) => GotNoted(logs, Addressee(e, part.(tag := n)), part.(tag := n))
  }

  function ObservedAll(e: Endpoint, n: nat, logs: Logs, ops: seq<Op>): Logs
    decreases |ops|
  {
    if ops == [] || Do(e, n, ops[0]).Err? then logs
    else
      var (e', n') := Do(e, n, ops[0]).value;
      ObservedAll(e', n', Observed(e, n, logs, ops[0]), ops[1..])
  }

  lemma DoRemembers(e: Endpoint, n: nat, logs: Logs, op: Op)
    requires SideInv(e, n) && Remembers(e, logs) && Do(e, n, op).Ok?
    ensures Remembers(Do(e, n, op).value.0, Observed(e, n, logs, op))
  {
    hide Remembers, Wakeups.WakeInv, Pools.PoolInv, Tables.TableInv, Call, Poll, Receive, OpenOutbound, IsVacantKey, StreamOk, AnswerTo;
    match op
    case Opens(key) =>
      if IsVacantKey(e, key) && OpenOutbound(e, key, n).Some? {
        OpenRemembers(e, logs, key, n);
      }
    case Calls(k, call) =>
      if k in e.streams {
        CallRemembers(e, logs, k, call);
      }
    case Polls(k, allowance) =>
      if k in e.tasks && k in e.streams {
        PollRemembers(e, logs, k, allowance);
      }
    case Receives(part) =>
      Lookups(e, n, part.id);
      ReceiveRemembers(e, logs, part.(tag := n));
  }

  lemma {:induction false} DoAllRemembers(e: Endpoint, n: nat, logs: Logs, ops: seq<Op>)
    requires SideInv(e, n) && Remembers(e, logs) && DoAll(e, n, ops).Ok?
    ensures Remembers(DoAll(e, n, ops).value.0, ObservedAll(e, n, logs, ops))
    decreases |ops|
  {
    hide SideInv, Remembers, Do, Observed;
    if ops != [] {
      DoKeeps(e, n, ops[0]);
      DoRemembers(e, n, logs, ops[0]);
      var (e', n') := Do(e, n, ops[0]).value;
      DoAllRemembers(e', n', Observed(e, n, logs, ops[0]), ops[1..]);
    }
  }

  /** The logs of a side after some operations that did not fail the connection, with any peer. */
  ghost predicate Kept(role: Role, cfg: Config, ops: seq<Op>, e: Endpoint, n: nat, logs: Logs) {
    && ConfigOk(cfg) && DoAll(NewEndpoint(role, cfg), 0, ops) == Ok((e, n))
    && logs == ObservedAll(NewEndpoint(role, cfg), 0, map[], ops)
  }

  /**
   * With any peer and any application, what was observed of a stream determines its state: what waits, what is in flight,
   * what is to be credited, which `FIN_*` were sent and received, and whether each half is open.
   */
  lemma LogsDetermine(role: Role, cfg: Config, ops: seq<Op>, e: Endpoint, n: nat, logs: Logs)
    requires Kept(role, cfg, ops, e, n, logs)
    ensures SideInv(e, n) && Remembers(e, logs) && e.cfg == cfg && e.role == role
  {
    hide SideInv, DoAll, ObservedAll, Remembers, ConfigOk;
    NewSide(role, cfg);
    AnyPeer(role, cfg, ops);
    NothingYet(role, cfg);
    DoAllRemembers(NewEndpoint(role, cfg), 0, map[], ops);
  }

  lemma NothingYet(role: Role, cfg: Config)
    ensures Remembers(NewEndpoint(role, cfg), map[])
  {
  }
}
