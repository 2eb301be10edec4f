/** Every action keeps the invariant of the system, and no delivery fails the connection. */
module Safety {
  import opened Prelude
  import opened SharedFlow
  import opened StreamId
  import opened Endpoint
  import opened Links
  import opened System
  import Direction
  import Outbound
  import Inbound
  import opened Local
  import Wakeups
  import Pools
  import Tables

  // A link, from the point of view of either side.

  ghost predicate Joint(s: System, x: Role, k: Ref)
    requires k < |s.ids|
  {
    DuplexInv(At(Side(s, x), k, s.ids[k]), At(Side(s, x.Peer()), k, s.ids[k]),
              PartsOf(Chan(s, x), k), PartsOf(Chan(s, x.Peer()), k))
  }

  ghost predicate Named(s: System, x: Role, k: Ref)
    requires k < |s.ids|
  {
    var e := Side(s, x);
    && (InitiatedBy(s.ids[k]) == x ==> k in e.streams)
    && (k in e.streams ==> e.streams[k].id == s.ids[k])
    && (InitiatedBy(s.ids[k]) != x && k in e.streams ==> !e.streams[k].syn)
  }

  ghost predicate SynOk(s: System, k: Ref)
    requires k < |s.ids|
  {
    var i := InitiatedBy(s.ids[k]);
    k in Side(s, i).streams &&
    SynInv(Side(s, i).streams[k].syn, k in Side(s, i.Peer()).streams,
           PartsOf(Chan(s, i), k), PartsOf(Chan(s, i.Peer()), k))
  }

  lemma LinkSides(s: System, x: Role, k: Ref)
    requires k < |s.ids|
    ensures LinkInv(s.ids[k], LinkOf(s, k))
       <==> Joint(s, x, k) && Named(s, x, k) && Named(s, x.Peer(), k) && SynOk(s, k)
  {
    hide PartsOf, SynInv, Direction.DirInv;
  }

  lemma Facts(s: System, x: Role, k: Ref)
    requires SysInv(s) && k < |s.ids|
    ensures Joint(s, x, k) && Named(s, x, k) && Named(s, x.Peer(), k) && SynOk(s, k)
    ensures LocalInv(Side(s, x), |s.ids|) && Side(s, x).role == x
  {
    hide LinkInv, LocalInv, Joint, Named, SynOk, LinkOf;
    LinkSides(s, x, k);
  }

  lemma KeysBelow(s: System, x: Role, k: Ref)
    requires SysInv(s) && k in Side(s, x).streams
    ensures k < |s.ids|
  {
  }

  lemma ChansOk(s: System)
    requires SysInv(s)
    ensures ChanInv(s.ids, s.up) && ChanInv(s.ids, s.down)
  {
  }

  /** The side `x` did something with stream `k`; it remains to look at that. */
  lemma Acts(s: System, s': System, x: Role, k: Ref)
    requires SysInv(s) && Changes(s, s', x, k)
    requires LocalInv(Side(s', x), |s.ids|)
    requires ChanInv(s.ids, s'.up) && ChanInv(s.ids, s'.down)
    requires Joint(s', x, k) && Named(s', x, k) && SynOk(s', k)
    ensures SysInv(s')
  {
    hide LocalInv, LinkInv, Joint, SynOk, LinkOf, PartsOf, Dead, ChanInv, SysInv;
    Facts(s, x, k);
    LinkSides(s', x, k);
    OneStream(s, s', x, k);
  }

  // The application.

  lemma CallStays(st: Stream, call: AppCall)
    ensures Called(st, call).id == st.id && Called(st, call).syn == st.syn
    ensures Dead(st) ==> Dead(Called(st, call))
  {
  }

  lemma CallStep(s: System, x: Role, k: Ref, call: AppCall)
    requires SysInv(s) && k in Side(s, x).streams
    ensures SysInv(WithSide(s, x, Call(Side(s, x), k, call)))
  {
    hide LocalInv, DuplexInv, SysInv, PartsOf, Dead, SynInv, Called, CallWakes, ChanInv;
    KeysBelow(s, x, k);
    Facts(s, x, k);
    var e := Side(s, x);
    var s' := WithSide(s, x, Call(e, k, call));
    CallLocal(e, |s.ids|, k, call);
    Links.CallKeeps(e.streams[k], At(Side(s, x.Peer()), k, s.ids[k]),
                    PartsOf(Chan(s, x), k), PartsOf(Chan(s, x.Peer()), k), call);
    CallStays(e.streams[k], call);
    ChansOk(s);
    Acts(s, s', x, k);
  }

  // The task of a stream.

  /** Only the polled stream changes. What it yields carries its own name, and `SYN` if it is the first. */
  lemma PollShape(e: Endpoint, k: Ref, allowance: nat)
    requires k in e.streams && !StreamFin(e.streams[k]).sent
    ensures var (e', part) := Poll(e, k, allowance);
            && e'.role == e.role && e'.cfg == e.cfg && e'.slots == e.slots
            && k in e'.streams && e'.streams == e.streams[k := e'.streams[k]]
            && e'.streams[k].id == e.streams[k].id
            && e'.streams[k].syn == (part.None? && e.streams[k].syn)
            && !Dead(e.streams[k])
            && (part.Some? ==> part.value.tag == k && part.value.id == e.streams[k].id && part.value.syn == e.streams[k].syn)
  {
    hide Inbound.PollIn, Outbound.PollOut, PassTurn, Forget;
  }

  lemma PollJoint(e: Endpoint, k: Ref, allowance: nat, y: Stream, xy: seq<Part>, yx: seq<Part>)
    requires k in e.streams && DuplexInv(e.streams[k], y, xy, yx)
    ensures var (e', part) := Poll(e, k, allowance);
            && k in e'.streams
            && DuplexInv(e'.streams[k], y, Sent(xy, part), yx)
            && (part.Some? ==> NonTrivial(part.value))
  {
    hide Inbound.PollIn, Outbound.PollOut, PassTurn, Forget, Direction.DirInv, FwdOf, BwdOf, NonTrivial, StreamFin;
    Links.PollKeeps(e.streams[k], y, xy, yx, e.cfg, k, e.sh.(awake := e.sh.awake - {k}), Threshold(e), allowance);
  }

  /** A frame of a live stream goes after the frames of the older streams with the same ID. */
  lemma SendsInOrder(s: System, x: Role, k: Ref, part: Part)
    requires SysInv(s) && k < |s.ids| && k in Side(s, x).streams && !StreamFin(Side(s, x).streams[k]).sent
    requires part.tag == k && part.id == s.ids[k] && NonTrivial(part)
    ensures ChanInv(s.ids, Chan(s, x) + [part])
  {
    hide LinkInv, LocalInv, NonTrivial, LinkOf, PartsOf;
    var ch := Chan(s, x);
    forall p | 0 <= p < |ch| && ch[p].id == part.id ensures ch[p].tag <= k {
      if k < ch[p].tag {
        StillOpen(s, x, k);
      }
    }
  }

  /** The side that started a stream has not seen it close while some side still has to send a `FIN_*`. */
  lemma StillOpen(s: System, x: Role, k: Ref)
    requires SysInv(s) && k < |s.ids| && k in Side(s, x).streams && !StreamFin(Side(s, x).streams[k]).sent
    ensures k in Side(s, InitiatedBy(s.ids[k])).streams
    ensures !Dead(Side(s, InitiatedBy(s.ids[k])).streams[k])
  {
    hide LocalInv, SysInv, PartsOf, SynInv, DuplexInv;
    var i := InitiatedBy(s.ids[k]);
    Facts(s, i, k);
    if x != i && Dead(Side(s, i).streams[k]) {
      DeadMeansPeerSent(Side(s, i).streams[k], Side(s, x).streams[k], PartsOf(Chan(s, i), k), PartsOf(Chan(s, x), k));
    }
  }

  lemma PollSyn(s: System, s': System, x: Role, k: Ref, part: Option<Part>)
    requires k < |s.ids| && k in Side(s, x).streams && k in Side(s', x).streams && s'.ids == s.ids
    requires SynOk(s, k) && Named(s, x, k)
    requires Side(s', x.Peer()) == Side(s, x.Peer())
    requires PartsOf(Chan(s', x), k) == Sent(PartsOf(Chan(s, x), k), part)
    requires Chan(s', x.Peer()) == Chan(s, x.Peer())
    requires Side(s', x).streams[k].syn == (part.None? && Side(s, x).streams[k].syn)
    requires part.Some? ==> part.value.syn == Side(s, x).streams[k].syn
    ensures SynOk(s', k)
  {
    hide PartsOf;
  }

  function Polled(s: System, x: Role, k: Ref, allowance: nat): System
    requires k in Side(s, x).streams
  {
    var (e, part) := Poll(Side(s, x), k, allowance);
    WithChan(WithSide(s, x, e), x, Sent(Chan(s, x), part))
  }

  lemma PollStep(s: System, x: Role, k: Ref, allowance: nat)
    requires SysInv(s) && k in Side(s, x).tasks && k in Side(s, x).streams
    ensures SysInv(Polled(s, x, k, allowance))
  {
    hide LocalInv, DuplexInv, SysInv, PartsOf, Dead, SynOk, ChanInv, Poll, NonTrivial, StreamFin;
    KeysBelow(s, x, k);
    Facts(s, x, k);
    Basics(s, x, k);
    var e := Side(s, x);
    var s' := Polled(s, x, k, allowance);
    var (e', part) := Poll(e, k, allowance);
    PollLocal(e, |s.ids|, k, allowance);
    PollShape(e, k, allowance);
    PollJoint(e, k, allowance, At(Side(s, x.Peer()), k, s.ids[k]), PartsOf(Chan(s, x), k), PartsOf(Chan(s, x.Peer()), k));
    ChansOk(s);
    if part.Some? {
      SendsInOrder(s, x, k, part.value);
      forall j: Ref ensures PartsOf(Chan(s', x), j) == if j == k then Sent(PartsOf(Chan(s, x), k), part) else PartsOf(Chan(s, x), j) {
        PartsAppend(Chan(s, x), part.value, j);
      }
    }
    PollSyn(s, s', x, k, part);
    Acts(s, s', x, k);
  }

  lemma Basics(s: System, x: Role, k: Ref)
    requires SysInv(s)
    ensures Side(s, x).cfg.frameLimit >= 1
    ensures k in Side(s, x).tasks && k in Side(s, x).streams ==> !StreamFin(Side(s, x).streams[k]).sent
  {
    hide StreamFin, LinksInv, ReuseInv, SlotInv, ChanInv;
    if k in Side(s, x).streams {
      assert Wakeups.TaskOk(Side(s, x), k);
    }
  }

  // A new stream.

  function Opened(s: System, x: Role, key: nat): System
    requires OpenOutbound(Side(s, x), key, |s.ids|).Some?
  {
    var (e, id) := OpenOutbound(Side(s, x), key, |s.ids|).value;
    WithSide(s, x, e).(ids := s.ids + [id])
  }

  lemma OpenSameLink(s: System, x: Role, key: nat, j: Ref)
    requires OpenOutbound(Side(s, x), key, |s.ids|).Some? && j < |s.ids|
    ensures LinkOf(Opened(s, x, key), j) == LinkOf(s, j)
  {
    hide PartsOf;
    assert forall role: Role :: Half(Side(Opened(s, x, key), role), j) == Half(Side(s, role), j);
  }

  lemma OpenNewLink(s: System, x: Role, key: nat)
    requires SysInv(s) && OpenOutbound(Side(s, x), key, |s.ids|).Some?
    ensures LinkInv(Opened(s, x, key).ids[|s.ids|], LinkOf(Opened(s, x, key), |s.ids|))
  {
    hide LinkInv, LinksInv, LocalInv, PartsOf, ReuseInv, SlotInv, NonTrivial;
    NoParts(s.up, |s.ids|);
    NoParts(s.down, |s.ids|);
    NewLink(Opened(s, x, key).ids[|s.ids|]);
    NewRef(s, x.Peer());
  }

  lemma OpenLinks(s: System, x: Role, key: nat)
    requires SysInv(s) && OpenOutbound(Side(s, x), key, |s.ids|).Some?
    ensures LinksInv(Opened(s, x, key))
  {
    hide LinkInv, LocalInv, LinkOf, ReuseInv, SlotInv, ChanInv;
    var s' := Opened(s, x, key);
    forall j | 0 <= j < |s'.ids| ensures LinkInv(s'.ids[j], LinkOf(s', j)) {
      if j < |s.ids| {
        OpenSameLink(s, x, key, j);
      } else {
        OpenNewLink(s, x, key);
      }
    }
  }

  lemma NewRef(s: System, x: Role)
    requires SysInv(s)
    ensures |s.ids| !in Side(s, x).streams
  {
  }

  lemma FreshId(s: System, x: Role, key: nat)
    requires SysInv(s) && IsVacantKey(Side(s, x), key) && OpenOutbound(Side(s, x), key, |s.ids|).Some?
    ensures var (e', id) := OpenOutbound(Side(s, x), key, |s.ids|).value;
            Lookup(Side(s, x), id).None? && InitiatedBy(id) == x && SlabIdx(id) < e'.slots
  {
    hide LinksInv, ReuseInv, SlotInv, ChanInv, Wakeups.WakeInv, Pools.PoolInv, Tables.TableInv;
    NewRef(s, x);
    Tables.OpenKeeps(Side(s, x), key, |s.ids|);
  }

  lemma UnlistedIsDead(s: System, x: Role, j: Ref)
    requires SysInv(s) && j in Side(s, x).streams && Lookup(Side(s, x), Side(s, x).streams[j].id).None?
    ensures Dead(Side(s, x).streams[j])
  {
    hide LinksInv, ReuseInv, SlotInv, ChanInv, Wakeups.WakeInv, Pools.PoolInv, Dead, Lookup;
  }

  lemma OpenReuse(s: System, x: Role, key: nat)
    requires SysInv(s) && IsVacantKey(Side(s, x), key) && OpenOutbound(Side(s, x), key, |s.ids|).Some?
    ensures ReuseInv(Opened(s, x, key)) && SlotInv(Opened(s, x, key))
  {
    hide LocalInv, LinksInv, Dead, ChanInv, SynOk, Joint;
    var s' := Opened(s, x, key);
    var n := |s.ids|;
    FreshId(s, x, key);
    forall j, k | 0 <= j < k < |s'.ids| && s'.ids[j] == s'.ids[k]
      ensures j in Side(s', InitiatedBy(s'.ids[j])).streams && Dead(Side(s', InitiatedBy(s'.ids[j])).streams[j])
    {
      Facts(s, InitiatedBy(s.ids[j]), j);
      if k < n {
        assert s.ids[j] == s.ids[k];
      } else {
        UnlistedIsDead(s, x, j);
      }
    }
  }

  lemma OpenStep(s: System, x: Role, key: nat)
    requires SysInv(s) && IsVacantKey(Side(s, x), key) && OpenOutbound(Side(s, x), key, |s.ids|).Some?
    ensures SysInv(Opened(s, x, key))
  {
    hide LocalInv, LinksInv, ReuseInv, SlotInv, NonTrivial;
    OpenLinks(s, x, key);
    OpenReuse(s, x, key);
    OpenLocal(Side(s, x), |s.ids|, key);
    MoreRefs(Side(s, x.Peer()), |s.ids|);
  }

  // A delivery.

  /** What the receiver would borrow after taking the data is at most what the sender borrows. */
  lemma PoolSuffices(s: System, x: Role, k: Ref)
    requires SysInv(s) && k < |s.ids| && PartsOf(Chan(s, x), k) != []
    ensures var e := Side(s, x.Peer());
            Links.Fits(e.cfg, At(e, k, s.ids[k]).inn, e.sh, PartsOf(Chan(s, x), k)[0].data)
  {
    hide LinksInv, ReuseInv, SlotInv, ChanInv, Tables.TableInv, Wakeups.WakeInv, Pools.PoolInv, PartsOf;
    var (d, e) := (Side(s, x), Side(s, x.Peer()));
    var i := At(e, k, s.ids[k]).inn;
    var data := PartsOf(Chan(s, x), k)[0].data;
    forall j: Ref | j < |s.ids|
      ensures Pools.RxShare(e.streams, e.cfg.localWindow)(j) <= Pools.TxShare(d.streams, d.cfg.remoteWindow)(j)
    {
      CountsLess(s, x, j);
    }
    CountsLess(s, x, k);
    if !Inbound.FinReadSent(i) {
      Pools.ReceiverStaysWithin(d, e, |s.ids|, k, i.unacked, |data|);
    }
  }

  lemma CountsLess(s: System, x: Role, k: Ref)
    requires SysInv(s) && k < |s.ids|
    ensures var (o, i) := (At(Side(s, x), k, s.ids[k]).out, At(Side(s, x.Peer()), k, s.ids[k]).inn);
            var parts := PartsOf(Chan(s, x), k);
            && i.unacked <= o.unacked
            && (parts != [] && !Inbound.FinReadSent(i) ==> i.unacked + |parts[0].data| <= o.unacked)
  {
    hide LocalInv, SysInv, PartsOf, SynOk, Named, Direction.DirInv, BwdOf;
    Facts(s, x, k);
    var (o, i) := (At(Side(s, x), k, s.ids[k]).out, At(Side(s, x.Peer()), k, s.ids[k]).inn);
    var parts := PartsOf(Chan(s, x), k);
    Direction.SenderCountsMore(o, i, FwdOf(parts), BwdOf(PartsOf(Chan(s, x.Peer()), k)));
    if parts != [] {
      assert |Direction.DataOf(FwdOf(parts))| >= |parts[0].data| by {
        FirstData(parts);
      }
    }
  }

  lemma FirstData(parts: seq<Part>)
    requires parts != []
    ensures |Direction.DataOf(FwdOf(parts))| >= |parts[0].data|
  {
    if FwdItem(parts[0]) != [] {
      assert FwdOf(parts)[0] == FwdItem(parts[0])[0];
    }
  }

  /** The next frame finds the stream it belongs to, or is the first frame of a stream and finds its ID free. */
  lemma FindsStream(s: System, x: Role)
    requires SysInv(s) && Chan(s, x) != []
    ensures var (part, e) := (Chan(s, x)[0], Side(s, x.Peer()));
            && part.tag < |s.ids| && part.id == s.ids[part.tag]
            && PartsOf(Chan(s, x), part.tag) == [part] + PartsOf(Chan(s, x)[1..], part.tag)
            && (part.tag in e.streams ==> Lookup(e, part.id) == Some(part.tag) && !part.syn)
            && (part.tag !in e.streams ==> Lookup(e, part.id).None? && part.syn && InitiatedBy(part.id) == x)
  {
    hide LinksInv, ReuseInv, SlotInv, Wakeups.WakeInv, Pools.PoolInv, DuplexInv, Dead, NonTrivial;
    var (part, e) := (Chan(s, x)[0], Side(s, x.Peer()));
    var k := part.tag;
    Facts(s, x.Peer(), k);
    var parts := PartsOf(Chan(s, x), k);
    assert parts[0] == part;
    if k in e.streams {
      InFlightMeansAlive(e.streams[k], At(Side(s, x), k, s.ids[k]), PartsOf(Chan(s, x.Peer()), k), parts);
    } else if Lookup(e, part.id).Some? {
      OlderIsDead(s, x, Lookup(e, part.id).value);
    }
  }

  /** An older stream with the ID of a stream whose first frame is next is not live at the receiver any more. */
  lemma OlderIsDead(s: System, x: Role, j: Ref)
    requires SysInv(s) && Chan(s, x) != []
    requires var (part, e) := (Chan(s, x)[0], Side(s, x.Peer()));
             && InitiatedBy(part.id) == x && part.tag < |s.ids| && part.id == s.ids[part.tag]
             && part.tag !in e.streams
             && j in e.streams && e.streams[j].id == part.id
    ensures Dead(Side(s, x.Peer()).streams[j])
  {
    hide LinksInv, SlotInv, LocalInv, DuplexInv, Dead, NonTrivial, PartsOf;
    var (part, d, e) := (Chan(s, x)[0], Side(s, x), Side(s, x.Peer()));
    var k := part.tag;
    KeysBelow(s, x.Peer(), j);
    Facts(s, x, j);
    Facts(s, x, k);
    PeerOpenMeansAlive(d.streams[k], NewStream(part.id, false), PartsOf(Chan(s, x), k), PartsOf(Chan(s, x.Peer()), k));
    assert j < k && Dead(d.streams[j]);
    forall p | 0 <= p < |Chan(s, x)| ensures Chan(s, x)[p].tag != j {
      assert p > 0 ==> Chan(s, x)[0].id == Chan(s, x)[p].id ==> k <= Chan(s, x)[p].tag;
    }
    NoParts(Chan(s, x), j);
    DeadMeansPeerSent(d.streams[j], e.streams[j], PartsOf(Chan(s, x), j), PartsOf(Chan(s, x.Peer()), j));
  }

  lemma BelowLimit(s: System, x: Role, id: Id)
    requires SysInv(s)
    requires InitiatedBy(id) == x && SlabIdx(id) < Side(s, x).slots && Lookup(Side(s, x.Peer()), id).None?
    ensures |Side(s, x.Peer()).inbound| < Side(s, x.Peer()).cfg.maxInbound
  {
    hide LinksInv, ReuseInv, ChanInv, Wakeups.WakeInv, Pools.PoolInv, Dead;
    var (d, e) := (Side(s, x), Side(s, x.Peer()));
    forall j: Id | j in e.inbound ensures InitiatedBy(j) == x && SlabIdx(j) < d.slots {
      assert Lookup(e, j) == Some(e.inbound[j]);
      var k := e.inbound[j];
      KeysBelow(s, x.Peer(), k);
      Facts(s, x.Peer(), k);
    }
    Tables.RoomForOne(e.inbound, x, d.slots, id);
  }

  lemma HandledShape(e: Endpoint, k: Ref, part: Part, y: Stream, xy: seq<Part>, yx: seq<Part>)
    requires k in e.streams && DuplexInv(e.streams[k], y, xy, yx) && yx != [] && yx[0] == part
    requires Links.Fits(e.cfg, e.streams[k].inn, e.sh, part.data)
    ensures var r := Handled(e, k, part);
            && r.Ok?
            && Shaped(e, r.value, k, y, xy, yx[1..])
            && r.value.streams[k].id == e.streams[k].id && r.value.streams[k].syn == e.streams[k].syn
            && (Dead(e.streams[k]) ==> Dead(r.value.streams[k]))
  {
    hide Received, DuplexInv, Forget, Dead, Links.Fits;
    Links.ReceivedKeeps(e.cfg, k, e.streams[k], y, xy, yx, e.sh);
    Tables.ReceivedDies(e.cfg, k, e.streams[k], e.sh, part);
  }

  /** Only stream `k` changed, and it still agrees with the other side. */
  ghost predicate Shaped(e: Endpoint, e': Endpoint, k: Ref, y: Stream, xy: seq<Part>, yx: seq<Part>) {
    && e'.role == e.role && e'.cfg == e.cfg && e'.slots == e.slots
    && k in e'.streams && e'.streams == e.streams[k := e'.streams[k]]
    && DuplexInv(e'.streams[k], y, xy, yx)
  }

  lemma ReceiveShape(e: Endpoint, part: Part, y: Stream, xy: seq<Part>, yx: seq<Part>)
    requires DuplexInv(At(e, part.tag, part.id), y, xy, yx) && yx != [] && yx[0] == part
    requires Links.Fits(e.cfg, At(e, part.tag, part.id).inn, e.sh, part.data)
    requires part.tag in e.streams ==> Lookup(e, part.id) == Some(part.tag) && !part.syn
    requires part.tag !in e.streams ==>
               Lookup(e, part.id).None? && part.syn && InitiatedBy(part.id) != e.role && |e.inbound| < e.cfg.maxInbound
    ensures var r := Receive(e, part);
            && r.Ok?
            && Shaped(e, r.value, part.tag, y, xy, yx[1..])
            && r.value.streams[part.tag].id == At(e, part.tag, part.id).id
            && r.value.streams[part.tag].syn == At(e, part.tag, part.id).syn
            && (part.tag in e.streams && Dead(e.streams[part.tag]) ==> Dead(r.value.streams[part.tag]))
  {
    hide Handled, DuplexInv, Dead;
    var k := part.tag;
    if k in e.streams {
      HandledShape(e, k, part, y, xy, yx);
    } else {
      var e1 := Created(e, k, NewStream(part.id, false)).(inbound := e.inbound[part.id := k]);
      HandledShape(e1, k, part, y, xy, yx);
    }
  }

  /** The next frame is accepted. */
  lemma Accepted(s: System, x: Role)
    requires SysInv(s) && Chan(s, x) != []
    ensures var (part, e, d) := (Chan(s, x)[0], Side(s, x.Peer()), Side(s, x));
            var r := Receive(e, part);
            && part.tag < |s.ids| && part.id == s.ids[part.tag]
            && r.Ok?
            && Shaped(e, r.value, part.tag, At(d, part.tag, part.id), PartsOf(Chan(s, x.Peer()), part.tag), PartsOf(Chan(s, x)[1..], part.tag))
            && r.value.streams[part.tag].id == At(e, part.tag, part.id).id
            && r.value.streams[part.tag].syn == At(e, part.tag, part.id).syn
            && (part.tag in e.streams && Dead(e.streams[part.tag]) ==> Dead(r.value.streams[part.tag]))
            && LocalInv(r.value, |s.ids|)
  {
    hide LocalInv, SysInv, PartsOf, DuplexInv, Dead, SynOk, Receive, Links.Fits, SlotInv;
    var (part, e, d) := (Chan(s, x)[0], Side(s, x.Peer()), Side(s, x));
    var k := part.tag;
    FindsStream(s, x);
    Facts(s, x, k);
    Facts(s, x.Peer(), k);
    PoolSuffices(s, x, k);
    if k !in e.streams {
      SlotsOk(s, k);
      BelowLimit(s, x, part.id);
    }
    var parts := PartsOf(Chan(s, x), k);
    assert parts[0] == part && parts[1..] == PartsOf(Chan(s, x)[1..], k);
    ReceiveShape(e, part, At(d, k, part.id), PartsOf(Chan(s, x.Peer()), k), parts);
    ReceiveLocal(e, |s.ids|, part);
  }

  lemma SlotsOk(s: System, k: Ref)
    requires SysInv(s) && k < |s.ids|
    ensures SlabIdx(s.ids[k]) < Side(s, InitiatedBy(s.ids[k])).slots
  {
  }

  function Delivered(s: System, x: Role): System
    requires Chan(s, x) != [] && Receive(Side(s, x.Peer()), Chan(s, x)[0]).Ok?
  {
    WithChan(WithSide(s, x.Peer(), Receive(Side(s, x.Peer()), Chan(s, x)[0]).value), x, Chan(s, x)[1..])
  }

  lemma DeliverSyn(s: System, s': System, x: Role, k: Ref)
    requires k < |s.ids| && s'.ids == s.ids
    requires SynOk(s, k) && Named(s, x.Peer(), k) && PartsOf(Chan(s, x), k) != []
    requires Side(s', x) == Side(s, x) && Chan(s', x.Peer()) == Chan(s, x.Peer())
    requires PartsOf(Chan(s', x), k) == PartsOf(Chan(s, x), k)[1..]
    requires k in Side(s', x.Peer()).streams
    requires k in Side(s, x.Peer()).streams ==> Side(s', x.Peer()).streams[k].syn == Side(s, x.Peer()).streams[k].syn
    ensures SynOk(s', k)
  {
    hide PartsOf;
  }

  lemma ChanRest(ids: seq<Id>, ch: seq<Part>)
    requires ChanInv(ids, ch) && ch != []
    ensures ChanInv(ids, ch[1..])
  {
    hide NonTrivial;
  }

  lemma DeliverStep(s: System, x: Role)
    requires SysInv(s) && Chan(s, x) != []
    ensures Receive(Side(s, x.Peer()), Chan(s, x)[0]).Ok?
    ensures SysInv(Delivered(s, x))
  {
    hide LocalInv, SysInv, PartsOf, DuplexInv, Dead, SynOk, Receive, ChanInv;
    var k := Chan(s, x)[0].tag;
    Accepted(s, x);
    FindsStream(s, x);
    Facts(s, x.Peer(), k);
    ChansOk(s);
    ChanRest(s.ids, Chan(s, x));
    var s' := Delivered(s, x);
    forall j: Ref | j != k ensures PartsOf(Chan(s', x), j) == PartsOf(Chan(s, x), j) {
      PartsPop(Chan(s, x), j);
    }
    DeliverSyn(s, s', x, k);
    Acts(s, s', x.Peer(), k);
  }

  lemma PartsPop(ch: seq<Part>, j: Ref)
    requires ch != [] && ch[0].tag != j
    ensures PartsOf(ch[1..], j) == PartsOf(ch, j)
  {
  }

  // Runs.

  /** Whatever happens, the invariant holds after it, and the connection does not fail. */
  lemma Step(s: System, a: Action)
    requires SysInv(s)
    ensures Next(s, a).Ok? && SysInv(Next(s, a).value)
  {
    hide SysInv, Poll, OpenOutbound, Call, Receive;
    match a
    case Opens(x, key) =>
      if IsVacantKey(Side(s, x), key) && OpenOutbound(Side(s, x), key, |s.ids|).Some? {
        OpenStep(s, x, key);
      }
    case Calls(x, k, call) =>
      if k in Side(s, x).streams {
        CallStep(s, x, k, call);
      }
    case Polls(x, k, allowance) =>
      if k in Side(s, x).tasks && k in Side(s, x).streams {
        PollStep(s, x, k, allowance);
      }
    case Delivers(x) =>
      if Chan(s, x) != [] {
        DeliverStep(s, x);
      }
  }

  lemma {:induction false} RunKeeps(s: System, actions: seq<Action>)
    requires SysInv(s)
    ensures Run(s, actions).Ok? && SysInv(Run(s, actions).value)
    decreases |actions|
  {
    hide SysInv, Next;
    if actions != [] {
      Step(s, actions[0]);
      RunKeeps(Next(s, actions[0]).value, actions[1..]);
    }
  }

  /**
   * Two conforming endpoints never fail each other, whatever the applications do, however the polls and the
   * deliveries interleave, whatever the rate estimates allow, and however often stream IDs are reused.
   */
  lemma NoViolation(client: Config, server: Config, actions: seq<Action>)
    requires ConfigsMatch(client, server) && ConfigsMatch(server, client)
    ensures Run(Start(client, server), actions).Ok?
    ensures SysInv(Run(Start(client, server), actions).value)
  {
    StartInv(client, server);
    RunKeeps(Start(client, server), actions);
  }
}
