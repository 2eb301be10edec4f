/** The live-stream tables hold exactly the streams that are not closed on both sides, each under its own ID. */
module Tables {
  import opened Prelude
  import opened SharedFlow
  import opened StreamId
  import opened Endpoint
  import Outbound
  import Inbound

  ghost predicate TableInv(e: Endpoint) {
    Listed(e) && Limits(e)
  }

  ghost predicate Listed(e: Endpoint) {
    && (forall id: Id :: Lookup(e, id).Some? ==>
          Lookup(e, id).value in e.streams && e.streams[Lookup(e, id).value].id == id)
    && (forall k | k in e.streams :: !Dead(e.streams[k]) <==> Lookup(e, e.streams[k].id) == Some(k))
  }

  ghost predicate Limits(e: Endpoint) {
    && (forall id: Id | id in e.inbound :: InitiatedBy(id) != e.role)
    && (forall x | x in e.outbound :: x < e.slots)
    && e.slots <= e.cfg.maxOutbound <= MAX_STREAMS_PER_SIDE
    && |e.inbound| <= e.cfg.maxInbound
  }

  lemma ForgetLookup(e: Endpoint, id: Id)
    ensures forall j: Id :: Lookup(Forget(e, id), j) == if j == id then None else Lookup(e, j)
  {
    forall j: Id
      ensures Lookup(Forget(e, id), j) == if j == id then None else Lookup(e, j)
    {
      IdRoundTrip(id);
      IdRoundTrip(j);
    }
  }

  lemma ForgetLimits(e: Endpoint, id: Id)
    requires Limits(e)
    ensures Limits(Forget(e, id))
  {
    SubsetCount((e.inbound - {id}).Keys, e.inbound.Keys);
  }

  lemma SameLookup(e: Endpoint, e': Endpoint)
    requires e'.outbound == e.outbound && e'.inbound == e.inbound && e'.role == e.role
    ensures forall id: Id :: Lookup(e', id) == Lookup(e, id)
  {
  }

  /** One stream changes, and the tables do not. */
  lemma OneStream(e: Endpoint, e': Endpoint, k: Ref)
    requires TableInv(e) && k in e.streams && k in e'.streams
    requires e'.streams == e.streams[k := e'.streams[k]]
    requires e'.streams[k].id == e.streams[k].id
    requires Dead(e'.streams[k]) == Dead(e.streams[k])
    requires e'.outbound == e.outbound && e'.inbound == e.inbound && e'.slots == e.slots
    requires e'.cfg == e.cfg && e'.role == e.role
    ensures TableInv(e')
  {
    hide Dead, Lookup;
    SameLookup(e, e');
  }

  /** A live stream dies, and is forgotten. */
  lemma OneDies(e: Endpoint, e': Endpoint, k: Ref)
    requires TableInv(e) && k in e.streams && k in e'.streams
    requires e'.streams == e.streams[k := e'.streams[k]]
    requires e'.streams[k].id == e.streams[k].id
    requires !Dead(e.streams[k]) && Dead(e'.streams[k])
    requires e'.outbound == e.outbound && e'.inbound == e.inbound && e'.slots == e.slots
    requires e'.cfg == e.cfg && e'.role == e.role
    ensures TableInv(Forget(e', e.streams[k].id))
  {
    hide Dead, Forget, Lookup;
    var id := e.streams[k].id;
    var f := Forget(e', id);
    ForgetLookup(e', id);
    ForgetLimits(e', id);
    SameLookup(e, e');
    assert forall j: Id :: Lookup(f, j) == if j == id then None else Lookup(e, j);
    forall j | j in f.streams
      ensures !Dead(f.streams[j]) <==> Lookup(f, f.streams[j].id) == Some(j)
    {
    }
  }

  // What every operation keeps.

  lemma OpenKeeps(e: Endpoint, key: nat, k: Ref)
    requires TableInv(e) && k !in e.streams && IsVacantKey(e, key)
    requires OpenOutbound(e, key, k).Some?
    ensures var (e', id) := OpenOutbound(e, key, k).value;
            TableInv(e') && Lookup(e, id).None? && InitiatedBy(id) == e.role && SlabIdx(id) < e'.slots
  {
    var (e', id) := OpenOutbound(e, key, k).value;
    assert key !in e.outbound;
    forall j: Id
      ensures Lookup(e', j) == if j == id then Some(k) else Lookup(e, j)
    {
      IdRoundTrip(j);
    }
  }

  lemma CallKeeps(e: Endpoint, k: Ref, call: AppCall)
    requires TableInv(e) && k in e.streams
    ensures TableInv(Call(e, k, call))
  {
    OneStream(e, Call(e, k, call), k);
  }

  lemma ReceivedDies(cfg: Config, k: Ref, s: Stream, sh: Shared, part: Part)
    requires Received(cfg, k, s, sh, part).Ok?
    ensures var (s', sh') := Received(cfg, k, s, sh, part).value;
            s'.id == s.id && s'.syn == s.syn && (Dead(s) ==> Dead(s'))
  {
  }

  lemma HandledKeeps(e: Endpoint, k: Ref, part: Part)
    requires TableInv(e) && Lookup(e, part.id) == Some(k)
    requires Handled(e, k, part).Ok?
    ensures TableInv(Handled(e, k, part).value)
  {
    hide Received, Dead;
    ReceivedDies(e.cfg, k, e.streams[k], e.sh, part);
    var (s, sh) := Received(e.cfg, k, e.streams[k], e.sh, part).value;
    if Dead(s) {
      OneDies(e, Updated(e, k, s, sh), k);
    } else {
      OneStream(e, Updated(e, k, s, sh), k);
    }
  }

  lemma AcceptKeeps(e: Endpoint, k: Ref, id: Id)
    requires TableInv(e) && k !in e.streams
    requires InitiatedBy(id) != e.role && Lookup(e, id).None? && |e.inbound| < e.cfg.maxInbound
    ensures TableInv(Created(e, k, NewStream(id, false)).(inbound := e.inbound[id := k]))
  {
    var e' := Created(e, k, NewStream(id, false)).(inbound := e.inbound[id := k]);
    assert forall j: Id :: Lookup(e', j) == if j == id then Some(k) else Lookup(e, j);
  }

  lemma ReceiveKeeps(e: Endpoint, part: Part)
    requires TableInv(e)
    requires Lookup(e, part.id).None? ==> part.tag !in e.streams
    requires Receive(e, part).Ok?
    ensures TableInv(Receive(e, part).value)
  {
    hide Handled, TableInv;
    match Lookup(e, part.id)
    case Some(k) =>
      HandledKeeps(e, k, part);
    case None =>
      AcceptKeeps(e, part.tag, part.id);
      HandledKeeps(Created(e, part.tag, NewStream(part.id, false)).(inbound := e.inbound[part.id := part.tag]),
                   part.tag, part);
  }

  lemma YieldedKeeps(e: Endpoint, k: Ref, s: Stream, sh: Shared)
    requires TableInv(e) && k in e.streams
    requires s.id == e.streams[k].id && !StreamFin(e.streams[k]).sent
    ensures TableInv(Yielded(e, k, s, sh))
  {
    hide TableInv, StreamFin;
    if Dead(s) {
      var passed := PassTurn(sh, k);
      OneDies(e, Updated(e, k, s, passed.(awake := passed.awake - {k})).(tasks := e.tasks - {k}), k);
    } else {
      OneStream(e, Yielded(e, k, s, sh), k);
    }
  }

  lemma PollKeeps(e: Endpoint, k: Ref, allowance: nat)
    requires TableInv(e) && k in e.streams && !StreamFin(e.streams[k]).sent
    ensures TableInv(Poll(e, k, allowance).0)
  {
    hide TableInv, Yielded;
    var s := e.streams[k];
    var ip := Inbound.PollIn(s.inn, e.sh.(awake := e.sh.awake - {k}), e.cfg.localWindow, Threshold(e));
    var op := Outbound.PollOut(k, s.out, ip.sh, e.cfg.remoteWindow, e.cfg.frameLimit, allowance);
    if ip.sent.None? && op.sent.None? {
      OneStream(e, Updated(e, k, s.(out := op.o, inn := ip.i), op.sh), k);
    } else {
      YieldedKeeps(e, k, s.(out := op.o, inn := ip.i, syn := false), op.sh);
    }
  }

  // How many streams the peer started.

  /** IDs that one side started and whose slots are below `slots`. */
  ghost function IdsBelow(role: Role, slots: nat): (ids: set<Id>)
    ensures forall id: Id :: id in ids <==> InitiatedBy(id) == role && SlabIdx(id) < slots
  {
    set id: Id | 0 <= id < 0x1_0000 && InitiatedBy(id) == role && SlabIdx(id) < slots
  }

  lemma {:induction false} CountIdsBelow(role: Role, slots: nat)
    ensures |IdsBelow(role, slots)| <= slots
  {
    if slots == 0 {
      assert IdsBelow(role, 0) == {};
    } else {
      CountIdsBelow(role, slots - 1);
      match FromSlabIdx(slots - 1, role)
      case None =>
        assert IdsBelow(role, slots) == IdsBelow(role, slots - 1);
      case Some(last) =>
        forall id | id in IdsBelow(role, slots) ensures id in IdsBelow(role, slots - 1) + {last} {
          IdRoundTrip(id);
        }
        assert IdsBelow(role, slots) == IdsBelow(role, slots - 1) + {last};
    }
  }

  lemma {:induction false} SubsetCount<T>(a: set<T>, b: set<T>)
    requires a <= b
    ensures |a| <= |b|
  {
    if a != {} {
      var x :| x in a;
      SubsetCount(a - {x}, b - {x});
    }
  }

  lemma WithoutOne<K>(m: map<K, Ref>, x: K)
    requires x in m
    ensures m.Values == (m - {x}).Values + {m[x]} && |m| == |m - {x}| + 1
  {
    var rest := m - {x};
    forall v | v in m.Values ensures v in rest.Values + {m[x]} {
      var i :| i in m && m[i] == v;
      assert i != x ==> i in rest && rest[i] == v;
    }
    forall v | v in rest.Values ensures v in m.Values {
      var i :| i in rest && rest[i] == v;
      assert i in m && m[i] == v;
    }
    assert m.Keys == rest.Keys + {x};
  }

  lemma {:induction false} BoundedSet(refs: set<nat>, n: nat)
    requires forall k | k in refs :: k < n
    ensures |refs| <= n
  {
    if n == 0 {
      assert refs == {};
    } else {
      BoundedSet(refs - {n - 1}, n - 1);
    }
  }

  /** Neither table is larger than its limit, whatever the peer does. */
  lemma WithinLimits(e: Endpoint)
    requires TableInv(e)
    ensures |e.outbound| <= e.cfg.maxOutbound && |e.inbound| <= e.cfg.maxInbound
  {
    hide Listed;
    BoundedSet(e.outbound.Keys, e.slots);
  }

  /** A table of IDs below the limit that does not hold all of them has room for one more. */
  lemma RoomForOne(table: map<Id, Ref>, role: Role, slots: nat, id: Id)
    requires forall j: Id | j in table :: InitiatedBy(j) == role && SlabIdx(j) < slots
    requires id !in table && InitiatedBy(id) == role && SlabIdx(id) < slots
    ensures |table| < slots
  {
    CountIdsBelow(role, slots);
    SubsetCount(table.Keys + {id}, IdsBelow(role, slots));
  }
}
