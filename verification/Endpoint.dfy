/** One side of a connection: its live-stream tables, its streams, and what they share. Functions on values. */
module Endpoint {
  import opened Prelude
  import opened Fins
  import opened Flow
  import opened SharedFlow
  import opened StreamId
  import Outbound
  import Inbound

  datatype Config = Config(
    frameLimit: nat,
    maxInbound: nat, maxOutbound: nat,
    localWindow: nat, localPool: nat,
    remoteWindow: nat, remotePool: nat)

  /** `syn` holds until the first part is yielded, which takes it along. */
  datatype Stream = Stream(id: Id, syn: bool, out: Outbound.Out, inn: Inbound.In)

  function NewStream(id: Id, syn: bool): Stream {
    Stream(id, syn, Outbound.NEW_OUT, Inbound.NEW_IN)
  }

  function StreamFin(s: Stream): FinState {
    Inbound.InFin(s.inn).And(Outbound.OutFin(s.out))
  }

  predicate Dead(s: Stream) {
    StreamFin(s).IsDead()
  }

  /**
   * What a frame says to a stream. Only the ID goes over the wire: `tag` names the incarnation of the stream
   * that the frame belongs to, and the receiver uses it for nothing but naming the stream object it creates.
   */
  datatype Part = Part(tag: Ref, id: Id, syn: bool, finRead: bool, finWrite: bool, credit: nat, data: Bytes)

  /**
   * `outbound` is the slab of the streams we started and `slots` the number of slots it ever allocated.
   * `inbound` holds the streams that the peer started. `tasks` are the streams in the selector.
   * `streams` holds every stream object, also those that the connection has forgotten: the application
   * may still hold them.
   */
  datatype Endpoint = Endpoint(
    role: Role, cfg: Config,
    outbound: map<nat, Ref>, slots: nat,
    inbound: map<Id, Ref>,
    streams: map<Ref, Stream>,
    tasks: set<Ref>,
    sh: Shared)

  function NewEndpoint(role: Role, cfg: Config): Endpoint {
    Endpoint(role, cfg, map[], 0, map[], map[], {}, Shared(cfg.localPool, 0, cfg.remotePool, 0, [], {}))
  }

  function Threshold(e: Endpoint): nat {
    CreditThreshold(e.cfg.localWindow)
  }

  /** The stream object, in its initial state if it was not created yet. */
  function At(e: Endpoint, k: Ref, id: Id): Stream {
    if k in e.streams then e.streams[k] else NewStream(id, false)
  }

  function Lookup(e: Endpoint, id: Id): Option<Ref> {
    if InitiatedBy(id) == e.role then
      if SlabIdx(id) in e.outbound then Some(e.outbound[SlabIdx(id)]) else None
    else if id in e.inbound then Some(e.inbound[id]) else None
  }

  function Forget(e: Endpoint, id: Id): (r: Endpoint)
    ensures r == e.(outbound := r.outbound, inbound := r.inbound)
  {
    if InitiatedBy(id) == e.role then e.(outbound := e.outbound - {SlabIdx(id)})
    else e.(inbound := e.inbound - {id})
  }

  function Created(e: Endpoint, k: Ref, s: Stream): Endpoint {
    e.(streams := e.streams[k := s], tasks := e.tasks + {k}, sh := Wake(e.sh, k))
  }

  function Updated(e: Endpoint, k: Ref, s: Stream, sh: Shared): Endpoint {
    e.(streams := e.streams[k := s], sh := sh)
  }

  // Starting a stream.

  /** The slab reuses a free slot if there is one, and allocates a new slot only if there is none. */
  predicate IsVacantKey(e: Endpoint, key: nat) {
    if |e.outbound| == e.slots then key == e.slots else key < e.slots && key !in e.outbound
  }

  function OpenOutbound(e: Endpoint, key: nat, k: Ref): Option<(Endpoint, Id)> {
    if |e.outbound| >= e.cfg.maxOutbound then None
    else
      match FromSlabIdx(key, e.role)
      case None => None
      case Some(id) =>
        var e' := Created(e, k, NewStream(id, true));
        Some((e'.(outbound := e.outbound[key := k], slots := if key < e.slots then e.slots else key + 1), id))
  }

  // The application.

  datatype AppCall = Write(data: Bytes) | CloseWriting | Read | CloseReading

  function Called(s: Stream, call: AppCall): Stream {
    match call
    case Write(data) => s.(out := Outbound.Write(s.out, data).0)
    case CloseWriting => s.(out := Outbound.CloseWriting(s.out))
    case Read => s.(inn := Inbound.Read(s.inn).0)
    case CloseReading => s.(inn := Inbound.CloseReading(s.inn))
  }

  /** What the application learns from a call. */
  datatype Answer = Wrote(result: Outbound.WriteResult) | Got(read: Inbound.ReadResult) | Done

  function AnswerTo(s: Stream, call: AppCall): Answer {
    match call
    case Write(data) => Wrote(Outbound.Write(s.out, data).1)
    case Read => Got(Inbound.Read(s.inn).1)
    case _ => Done
  }

  predicate CallWakes(s: Stream, call: AppCall, threshold: nat) {
    match call
    case Write(data) => Outbound.WriteWakes(s.out, data)
    case CloseWriting => Outbound.CloseWritingWakes(s.out)
    case Read => Inbound.ReadWakes(s.inn, threshold)
    case CloseReading => Inbound.CloseReadingWakes(s.inn)
  }

  function Call(e: Endpoint, k: Ref, call: AppCall): Endpoint
    requires k in e.streams
  {
    var s := e.streams[k];
    Updated(e, k, Called(s, call), if CallWakes(s, call, Threshold(e)) then Wake(e.sh, k) else e.sh)
  }

  // Receiving a frame.

  type Arrival = Result<(Stream, Shared), Violation>

  function ArriveWindow(cfg: Config, k: Ref, s: Stream, sh: Shared, part: Part): Arrival {
    if part.credit == 0 then Ok((s, sh))
    else
      var (o, sh') :- Outbound.ReceivedWindow(k, s.out, sh, cfg.remoteWindow, part.credit);
      Ok((s.(out := o), sh'))
  }

  function ArriveData(cfg: Config, s: Stream, sh: Shared, part: Part): Arrival {
    var (i, sh') :- Inbound.ReceivedData(s.inn, sh, cfg.localWindow, part.data);
    Ok((s.(inn := i), sh'))
  }

  function ArriveFinWrite(k: Ref, s: Stream, sh: Shared, part: Part): Arrival {
    if !part.finWrite then Ok((s, sh))
    else
      var i :- Inbound.ReceivedFinWrite(s.inn);
      Ok((s.(inn := i), if Inbound.FinWriteWakes(s.inn) then Wake(sh, k) else sh))
  }

  function ArriveFinRead(cfg: Config, k: Ref, s: Stream, sh: Shared, part: Part): Arrival {
    if !part.finRead then Ok((s, sh))
    else
      var (o, sh') :- Outbound.ReceivedFinRead(k, s.out, sh, cfg.remoteWindow);
      Ok((s.(out := o), sh'))
  }

  /** `WINDOW` comes first, then `DATA`, then `FIN_WRITE`, then `FIN_READ`. The first violation wins. */
  function Received(cfg: Config, k: Ref, s: Stream, sh: Shared, part: Part): Arrival {
    var (s1, sh1) :- ArriveWindow(cfg, k, s, sh, part);
    var (s2, sh2) :- ArriveData(cfg, s1, sh1, part);
    var (s3, sh3) :- ArriveFinWrite(k, s2, sh2, part);
    ArriveFinRead(cfg, k, s3, sh3, part)
  }

  function Handled(e: Endpoint, k: Ref, part: Part): Result<Endpoint, Violation> {
    var (s, sh) :- Received(e.cfg, k, At(e, k, part.id), e.sh, part);
    var e' := Updated(e, k, s, sh);
    Ok(if Dead(s) then Forget(e', part.id) else e')
  }

  function Receive(e: Endpoint, part: Part): Result<Endpoint, Violation> {
    match Lookup(e, part.id)
    case Some(k) =>
      if part.syn then Err(if InitiatedBy(part.id) == e.role then WrongIdPool else OccupiedId)
      else Handled(e, k, part)
    case None =>
      if !part.syn then Err(UnknownStream)
      else if InitiatedBy(part.id) == e.role then Err(WrongIdPool)
      else if |e.inbound| >= e.cfg.maxInbound then Err(TooManyStreams)
      else
        var e' := Created(e, part.tag, NewStream(part.id, false));
        Handled(e'.(inbound := e.inbound[part.id := part.tag]), part.tag, part)
  }

  // Polling a stream for what it sends next.

  function PartOf(k: Ref, s: Stream, credit: Option<Inbound.Credit>, chunk: Option<Outbound.Chunk>): Part {
    Part(k, s.id, s.syn,
         credit.Some? && credit.value.fin,
         chunk.Some? && chunk.value.fin,
         if credit.Some? then credit.value.amount else 0,
         if chunk.Some? then chunk.value.data else [])
  }

  function Poll(e: Endpoint, k: Ref, allowance: nat): (Endpoint, Option<Part>)
    requires k in e.streams
  {
    var s := e.streams[k];
    var ip := Inbound.PollIn(s.inn, e.sh.(awake := e.sh.awake - {k}), e.cfg.localWindow, Threshold(e));
    var op := Outbound.PollOut(k, s.out, ip.sh, e.cfg.remoteWindow, e.cfg.frameLimit, allowance);
    var s' := s.(out := op.o, inn := ip.i);
    if ip.sent.None? && op.sent.None? then
      (Updated(e, k, s', op.sh), None)
    else
      (Yielded(e, k, s'.(syn := false), op.sh), Some(PartOf(k, s, ip.sent, op.sent)))
  }

  /** A stream that yielded is polled again, unless it has sent both `FIN_*`: then its task is done. */
  function Yielded(e: Endpoint, k: Ref, s: Stream, sh: Shared): Endpoint {
    if !StreamFin(s).sent then
      Updated(e, k, s, Wake(sh, k))
    else
      var passed := PassTurn(sh, k);
      var done := Updated(e, k, s, passed.(awake := passed.awake - {k})).(tasks := e.tasks - {k});
      if Dead(s) then Forget(done, s.id) else done
  }
}
