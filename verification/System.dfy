/**
 * Two endpoints, and an ordered channel in each direction. A run is any sequence of actions:
 * applications open, write, read and close streams, stream tasks are polled, frames are delivered.
 */
module System {
  import opened Prelude
  import opened Fins
  import opened StreamId
  import opened Endpoint
  import opened Links
  import opened Local

  /** `ids` is history: the ID of every stream that was ever opened. A reference is an index into it. */
  datatype System = System(client: Endpoint, server: Endpoint, up: seq<Part>, down: seq<Part>, ids: seq<Id>)

  function Side(s: System, role: Role): Endpoint {
    if role.Client? then s.client else s.server
  }

  /** The frames that the side has sent and the other side has not processed. */
  function Chan(s: System, role: Role): seq<Part> {
    if role.Client? then s.up else s.down
  }

  function WithSide(s: System, role: Role, e: Endpoint): System {
    if role.Client? then s.(client := e) else s.(server := e)
  }

  function WithChan(s: System, role: Role, ch: seq<Part>): System {
    if role.Client? then s.(up := ch) else s.(down := ch)
  }

  function Sent(ch: seq<Part>, part: Option<Part>): seq<Part> {
    if part.Some? then ch + [part.value] else ch
  }

  function Start(client: Config, server: Config): System {
    System(NewEndpoint(Client, client), NewEndpoint(Server, server), [], [], [])
  }

  // Runs.

  datatype Action =
    | Opens(role: Role, key: nat)
    | Calls(role: Role, k: Ref, call: AppCall)
    | Polls(role: Role, k: Ref, allowance: nat)
    | Delivers(role: Role)

  /** An action that is not possible changes nothing. Only a delivery can fail the connection. */
  function Next(s: System, a: Action): Result<System, Violation> {
    var e := Side(s, a.role);
    match a
    case Opens(role, key) =>
      if !IsVacantKey(e, key) then Ok(s)
      else
        var started := OpenOutbound(e, key, |s.ids|);
        if started.None? then Ok(s) else Ok(WithSide(s, role, started.value.0).(ids := s.ids + [started.value.1]))
    case Calls(role, k, call) =>
      if k !in e.streams then Ok(s) else Ok(WithSide(s, role, Call(e, k, call)))
    case Polls(role, k, allowance) =>
      if k !in e.tasks || k !in e.streams then Ok(s)
      else
        var (e', part) := Poll(e, k, allowance);
        Ok(WithChan(WithSide(s, role, e'), role, Sent(Chan(s, role), part)))
    case Delivers(role) =>
      if Chan(s, role) == [] then Ok(s)
      else
        var e' :- Receive(Side(s, role.Peer()), Chan(s, role)[0]);
        Ok(WithChan(WithSide(s, role.Peer(), e'), role, Chan(s, role)[1..]))
  }

  function Run(s: System, actions: seq<Action>): Result<System, Violation>
    decreases |actions|
  {
    if actions == [] then Ok(s)
    else
      var s' :- Next(s, actions[0]);
      Run(s', actions[1..])
  }

  // One incarnation, as a part of the system.

  function PartsOf(ch: seq<Part>, k: Ref): seq<Part> {
    if ch == [] then [] else (if ch[0].tag == k then [ch[0]] else []) + PartsOf(ch[1..], k)
  }

  lemma {:induction false} PartsAppend(ch: seq<Part>, p: Part, k: Ref)
    ensures PartsOf(ch + [p], k) == if p.tag == k then PartsOf(ch, k) + [p] else PartsOf(ch, k)
  {
    if ch == [] {
      assert [p][1..] == [];
    } else {
      PartsAppend(ch[1..], p, k);
      assert (ch + [p])[1..] == ch[1..] + [p];
    }
  }

  lemma {:induction false} NoParts(ch: seq<Part>, k: Ref)
    requires forall p | 0 <= p < |ch| :: ch[p].tag != k
    ensures PartsOf(ch, k) == []
  {
    if ch != [] {
      NoParts(ch[1..], k);
    }
  }

  function Half(e: Endpoint, k: Ref): Option<Stream> {
    if k in e.streams then Some(e.streams[k]) else None
  }

  function LinkOf(s: System, k: Ref): Link
    requires k < |s.ids|
  {
    var i := InitiatedBy(s.ids[k]);
    Link(Half(Side(s, i), k), Half(Side(s, i.Peer()), k), PartsOf(Chan(s, i), k), PartsOf(Chan(s, i.Peer()), k))
  }

  // The invariant.

  ghost predicate ConfigsMatch(a: Config, b: Config) {
    && 1 <= a.frameLimit <= 0xFFFF && a.frameLimit == b.frameLimit
    && 1 <= a.localWindow == b.remoteWindow && a.localPool == b.remotePool
    && a.maxOutbound <= b.maxInbound && a.maxOutbound <= MAX_STREAMS_PER_SIDE
  }

  /** Every frame belongs to a stream, and an older stream with the same ID comes first. */
  ghost predicate ChanInv(ids: seq<Id>, ch: seq<Part>) {
    && (forall p | 0 <= p < |ch| :: ch[p].tag < |ids| && ch[p].id == ids[ch[p].tag] && NonTrivial(ch[p]))
    && (forall p, q | 0 <= p < q < |ch| && ch[p].id == ch[q].id :: ch[p].tag <= ch[q].tag)
  }

  /** An ID is reused only after the side that started the old stream has seen it close. */
  ghost predicate ReuseInv(s: System) {
    forall j, k | 0 <= j < k < |s.ids| && s.ids[j] == s.ids[k] ::
      j in Side(s, InitiatedBy(s.ids[j])).streams && Dead(Side(s, InitiatedBy(s.ids[j])).streams[j])
  }

  ghost predicate SlotInv(s: System) {
    forall k | 0 <= k < |s.ids| :: SlabIdx(s.ids[k]) < Side(s, InitiatedBy(s.ids[k])).slots
  }

  ghost predicate RolesOk(s: System) {
    && s.client.role == Client && s.server.role == Server
    && ConfigsMatch(s.client.cfg, s.server.cfg) && ConfigsMatch(s.server.cfg, s.client.cfg)
  }

  ghost predicate LinksInv(s: System) {
    forall k | 0 <= k < |s.ids| :: LinkInv(s.ids[k], LinkOf(s, k))
  }

  ghost predicate SysInv(s: System) {
    && RolesOk(s)
    && LocalInv(s.client, |s.ids|) && LocalInv(s.server, |s.ids|)
    && LinksInv(s)
    && ChanInv(s.ids, s.up) && ChanInv(s.ids, s.down)
    && ReuseInv(s) && SlotInv(s)
  }

  lemma StartInv(client: Config, server: Config)
    requires ConfigsMatch(client, server) && ConfigsMatch(server, client)
    ensures SysInv(Start(client, server))
  {
    hide LocalInv, StreamsOk;
    NewSide(Client, client);
    NewSide(Server, server);
  }

  /** Only stream `k` of the side `x` changed, and the channels only for `k`. */
  ghost predicate Changes(s: System, s': System, x: Role, k: Ref) {
    && k < |s.ids| && s'.ids == s.ids
    && Side(s', x.Peer()) == Side(s, x.Peer())
    && Side(s', x).role == Side(s, x).role && Side(s', x).cfg == Side(s, x).cfg && Side(s', x).slots == Side(s, x).slots
    && k in Side(s', x).streams && Side(s', x).streams == Side(s, x).streams[k := Side(s', x).streams[k]]
    && (k in Side(s, x).streams && Dead(Side(s, x).streams[k]) ==> Dead(Side(s', x).streams[k]))
    && (forall j: Ref | j != k :: PartsOf(s'.up, j) == PartsOf(s.up, j) && PartsOf(s'.down, j) == PartsOf(s.down, j))
  }

  lemma SameLink(s: System, s': System, x: Role, k: Ref, j: Ref)
    requires Changes(s, s', x, k) && j < |s.ids| && j != k
    ensures LinkOf(s', j) == LinkOf(s, j)
  {
    hide PartsOf, Dead;
    assert forall role: Role :: Half(Side(s', role), j) == Half(Side(s, role), j);
  }

  lemma OtherLinks(s: System, s': System, x: Role, k: Ref)
    requires LinksInv(s) && Changes(s, s', x, k)
    requires LinkInv(s.ids[k], LinkOf(s', k))
    ensures LinksInv(s')
  {
    hide LinkInv, LinkOf, PartsOf;
    forall j | 0 <= j < |s.ids| ensures LinkInv(s.ids[j], LinkOf(s', j)) {
      if j != k {
        SameLink(s, s', x, k, j);
      }
    }
  }

  lemma ReuseKept(s: System, s': System, x: Role, k: Ref)
    requires ReuseInv(s) && SlotInv(s) && Changes(s, s', x, k)
    ensures ReuseInv(s') && SlotInv(s')
  {
    hide Dead, PartsOf;
  }

  lemma OneStream(s: System, s': System, x: Role, k: Ref)
    requires SysInv(s) && Changes(s, s', x, k)
    requires LocalInv(Side(s', x), |s.ids|)
    requires ChanInv(s.ids, s'.up) && ChanInv(s.ids, s'.down)
    requires LinkInv(s.ids[k], LinkOf(s', k))
    ensures SysInv(s')
  {
    hide LinkInv, LocalInv, ChanInv, Dead, ConfigsMatch, LinksInv, ReuseInv, SlotInv;
    OtherLinks(s, s', x, k);
    ReuseKept(s, s', x, k);
  }
}
